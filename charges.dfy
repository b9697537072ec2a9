/** The flag surcharge and the taxes (faturamento_energia.py, lines
    165-211). */
module Charges {
  import opened Wrappers
  import opened Tariff

  /** One entry of the tax breakdown: the tax's name and the amount due. */
  datatype TaxAmount = TaxAmount(name: string, amount: real)

  /** `calcular_adicional_bandeira`: the subtotal times the rate of the
      flag; `None` for a flag missing from the table, where the subscript
      `BANDEIRAS[bandeira]` raises `KeyError`. */
  function FlagSurcharge(flags: seq<NamedRate>, subtotal: real, flag: string): (r: Option<real>)
    ensures r.Some? <==> flag in Names(flags)
  {
    match RateOf(flags, flag)
    case None => None
    case Some(rate) => Some(subtotal * rate)
  }

  /** With non-negative flag rates, a non-negative subtotal gets a
      non-negative surcharge. */
  lemma SurchargeNonNegative(flags: seq<NamedRate>, subtotal: real, flag: string)
    requires WellFormedRates(flags) && subtotal >= 0.0 && flag in Names(flags)
    ensures FlagSurcharge(flags, subtotal, flag).Some?
    ensures FlagSurcharge(flags, subtotal, flag).value >= 0.0
  {
    ProductNonNegative(subtotal, RateOf(flags, flag).value);
  }

  lemma ProductNonNegative(x: real, y: real)
    requires x >= 0.0 && y >= 0.0
    ensures x * y >= 0.0
  {
  }

  /** With distinct flag names, the surcharge for the flag of entry `k` is
      the subtotal times that entry's rate. */
  lemma SurchargeOfEntry(flags: seq<NamedRate>, k: nat, subtotal: real)
    requires WellFormedRates(flags) && k < |flags|
    ensures FlagSurcharge(flags, subtotal, flags[k].name).Some?
    ensures FlagSurcharge(flags, subtotal, flags[k].name).value == subtotal * flags[k].rate
  {
    RateOfEntry(flags, k);
  }

  /** `calcular_imposto`: the base times the aliquot, not rounded. */
  function ApplyTax(base: real, aliquot: real): real
  {
    base * aliquot
  }

  /** A tax on a non-negative base at a non-negative aliquot is not
      negative, and nothing is owed on a zero base or at a zero aliquot. */
  lemma ApplyTaxSign(base: real, aliquot: real)
    ensures base >= 0.0 && aliquot >= 0.0 ==> ApplyTax(base, aliquot) >= 0.0
    ensures base == 0.0 || aliquot == 0.0 ==> ApplyTax(base, aliquot) == 0.0
  {
    if base >= 0.0 && aliquot >= 0.0 {
      ProductNonNegative(base, aliquot);
    }
  }

  /** `calcular_impostos`: one entry per tax of the table, in table order,
      each the tax applied to the same base. */
  function ComputeTaxes(taxes: seq<NamedRate>, base: real): (r: seq<TaxAmount>)
    ensures |r| == |taxes|
  {
    seq(|taxes|, k requires 0 <= k < |taxes| => TaxAmount(taxes[k].name, ApplyTax(base, taxes[k].rate)))
  }

  /** The breakdown keeps the keys of the tax table in table order and
      charges each tax its aliquot on the common base. */
  lemma TaxEntries(taxes: seq<NamedRate>, base: real)
    ensures |ComputeTaxes(taxes, base)| == |taxes|
    ensures forall k :: 0 <= k < |taxes| ==>
              && ComputeTaxes(taxes, base)[k].name == taxes[k].name
              && ComputeTaxes(taxes, base)[k].amount == base * taxes[k].rate
  {
  }

  /** `reduce(lambda acc, valor: acc + valor, impostos.values(), 0.0)`.
      Over exact reals the order of the additions does not matter, so the
      sum is taken from the front. */
  function SumTaxes(ts: seq<TaxAmount>): real
  {
    if ts == [] then 0.0 else ts[0].amount + SumTaxes(ts[1..])
  }

  /** The sum of the aliquots of a table. */
  function SumRates(t: seq<NamedRate>): real
  {
    if t == [] then 0.0 else t[0].rate + SumRates(t[1..])
  }

  lemma {:induction false} SumRatesNonNegative(t: seq<NamedRate>)
    requires forall k :: 0 <= k < |t| ==> t[k].rate >= 0.0
    ensures SumRates(t) >= 0.0
  {
    if t != [] {
      SumRatesNonNegative(t[1..]);
    }
  }

  /** The total tax is the base times the sum of the aliquots. */
  lemma {:induction false} TotalTaxIsProportional(taxes: seq<NamedRate>, base: real)
    ensures SumTaxes(ComputeTaxes(taxes, base)) == base * SumRates(taxes)
  {
    if taxes != [] {
      TotalTaxIsProportional(taxes[1..], base);
      assert ComputeTaxes(taxes, base)[1..] == ComputeTaxes(taxes[1..], base);
      Distribute(base, taxes[0].rate, SumRates(taxes[1..]), SumRates(taxes));
    }
  }

  lemma Distribute(a: real, b: real, c: real, sum: real)
    requires sum == b + c
    ensures a * sum == a * b + a * c
  {
  }

  lemma ScaleSum(a: real, t: real)
    ensures a + a * t == a * (1.0 + t)
  {
  }

  /** With non-negative aliquots, a non-negative base yields a
      non-negative amount for every tax. */
  lemma TaxAmountsNonNegative(taxes: seq<NamedRate>, base: real)
    requires WellFormedRates(taxes) && base >= 0.0
    ensures forall k :: 0 <= k < |taxes| ==> ComputeTaxes(taxes, base)[k].amount >= 0.0
  {
    forall k | 0 <= k < |taxes|
      ensures ComputeTaxes(taxes, base)[k].amount >= 0.0
    {
      ApplyTaxSign(base, taxes[k].rate);
    }
  }

  /** ... and a non-negative total tax. */
  lemma TotalTaxNonNegative(taxes: seq<NamedRate>, base: real)
    requires WellFormedRates(taxes) && base >= 0.0
    ensures SumTaxes(ComputeTaxes(taxes, base)) >= 0.0
  {
    TotalTaxIsProportional(taxes, base);
    SumRatesNonNegative(taxes);
    ProductNonNegative(base, SumRates(taxes));
  }

  /** A zero base owes nothing: every tax and the total tax are zero. */
  lemma ZeroBaseTaxes(taxes: seq<NamedRate>)
    ensures forall k :: 0 <= k < |taxes| ==> ComputeTaxes(taxes, 0.0)[k].amount == 0.0
  {
    forall k | 0 <= k < |taxes|
      ensures ComputeTaxes(taxes, 0.0)[k].amount == 0.0
    {
      ApplyTaxSign(0.0, taxes[k].rate);
    }
  }

  lemma ZeroBaseTotalTax(taxes: seq<NamedRate>)
    ensures SumTaxes(ComputeTaxes(taxes, 0.0)) == 0.0
  {
    TotalTaxIsProportional(taxes, 0.0);
  }
}
