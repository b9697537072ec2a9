/** The orchestrator `calcular_faturamento` and the consistency check
    `verificar_invariantes` (faturamento_energia.py, lines 214-295). */
module Billing {
  import opened Wrappers
  import opened Tariff
  import opened Validation
  import opened Brackets
  import opened Charges

  /** The dictionary `calcular_faturamento` returns. */
  datatype Bill = Bill(
    consumption: real,
    flag: string,
    items: seq<LineItem>,
    subtotal: real,
    surcharge: real,
    base: real,
    taxes: seq<TaxAmount>,
    totalTaxes: real,
    total: real)

  /** `reduce(lambda acc, faixa: acc + faixa['valor'], faixas, 0.0)`. */
  function SumAmounts(items: seq<LineItem>): real
  {
    if items == [] then 0.0 else items[0].amount + SumAmounts(items[1..])
  }

  /** `calcular_faturamento`: breakdown, subtotal, flag surcharge, tax base,
      taxes and totals. `None` where the flag lookup raises `KeyError`. */
  function ComputeBill(cfg: Config, consumption: real, flag: string): (r: Option<Bill>)
    ensures r.Some? <==> flag in Names(cfg.flags)
    ensures r.Some? ==>
              && r.value.consumption == consumption && r.value.flag == flag
              && |r.value.taxes| == |cfg.taxes|
  {
    var items := Breakdown(cfg.brackets, consumption);
    var subtotal := SumAmounts(items);
    match FlagSurcharge(cfg.flags, subtotal, flag)
    case None => None
    case Some(surcharge) =>
      var base := subtotal + surcharge;
      var taxes := ComputeTaxes(cfg.taxes, base);
      var totalTaxes := SumTaxes(taxes);
      Some(Bill(consumption, flag, items, subtotal, surcharge, base, taxes, totalTaxes, base + totalTaxes))
  }

  /** The allowance of `verificar_invariantes` for rounding. */
  const Tolerance: real := 0.01

  function Abs(x: real): real { if x < 0.0 then -x else x }

  /** The sum `verificar_invariantes` rebuilds: bracket amounts, surcharge
      and total tax. */
  function Recomputed(b: Bill): real
  {
    SumAmounts(b.items) + b.surcharge + b.totalTaxes
  }

  /** `verificar_invariantes`: the total is not negative and the parts add
      up to it within the tolerance. */
  function CheckInvariants(b: Bill): bool
  {
    !(b.total < 0.0) && Abs(Recomputed(b) - b.total) < Tolerance
  }

  /** The relations `calcular_faturamento` sets up between the fields of
      the bill it returns, the flag lookup aside: the subtotal folds the
      item amounts, the base adds the surcharge, one tax per table entry on
      that base, the total tax folds them, and the total adds it to the
      base. */
  predicate Assembled(taxes: seq<NamedRate>, b: Bill)
  {
    && b.subtotal == SumAmounts(b.items)
    && b.base == b.subtotal + b.surcharge
    && b.taxes == ComputeTaxes(taxes, b.base)
    && b.totalTaxes == SumTaxes(b.taxes)
    && b.total == b.base + b.totalTaxes
  }

  // One fact per lemma about the fields of a computed bill: the solver
  // handles each alone at once, but not all of them in a single goal.

  lemma ItemsOfBill(cfg: Config, c: real, flag: string, b: Bill)
    requires ComputeBill(cfg, c, flag) == Some(b)
    ensures b.items == Breakdown(cfg.brackets, c)
  {
  }

  lemma SubtotalOfBill(cfg: Config, c: real, flag: string, b: Bill)
    requires ComputeBill(cfg, c, flag) == Some(b)
    ensures b.subtotal == SumAmounts(b.items)
  {
  }

  lemma SurchargeOfBill(cfg: Config, c: real, flag: string, b: Bill)
    requires ComputeBill(cfg, c, flag) == Some(b)
    ensures FlagSurcharge(cfg.flags, b.subtotal, flag) == Some(b.surcharge)
  {
  }

  lemma BaseOfBill(cfg: Config, c: real, flag: string, b: Bill)
    requires ComputeBill(cfg, c, flag) == Some(b)
    ensures b.base == b.subtotal + b.surcharge
  {
  }

  lemma TaxListOfBill(cfg: Config, c: real, flag: string, b: Bill)
    requires ComputeBill(cfg, c, flag) == Some(b)
    ensures b.taxes == ComputeTaxes(cfg.taxes, b.base)
  {
  }

  lemma TotalTaxOfBill(cfg: Config, c: real, flag: string, b: Bill)
    requires ComputeBill(cfg, c, flag) == Some(b)
    ensures b.totalTaxes == SumTaxes(b.taxes)
  {
  }

  lemma TotalOfBill(cfg: Config, c: real, flag: string, b: Bill)
    requires ComputeBill(cfg, c, flag) == Some(b)
    ensures b.total == b.base + b.totalTaxes
  {
  }

  /** A computed bill bills the breakdown of its consumption, charges the
      flag's surcharge on its subtotal, and is assembled from them. */
  lemma ComputedBillAssembled(cfg: Config, c: real, flag: string, b: Bill)
    requires ComputeBill(cfg, c, flag) == Some(b)
    ensures b.items == Breakdown(cfg.brackets, c)
    ensures FlagSurcharge(cfg.flags, b.subtotal, flag) == Some(b.surcharge)
    ensures Assembled(cfg.taxes, b)
  {
    ItemsOfBill(cfg, c, flag, b);
    SubtotalOfBill(cfg, c, flag, b);
    SurchargeOfBill(cfg, c, flag, b);
    BaseOfBill(cfg, c, flag, b);
    TaxListOfBill(cfg, c, flag, b);
    TotalTaxOfBill(cfg, c, flag, b);
    TotalOfBill(cfg, c, flag, b);
  }

  /** For the flag of entry `k` of the table, the surcharge is the subtotal
      times that entry's rate. */
  lemma BillSurcharge(cfg: Config, c: real, k: nat, b: Bill)
    requires WellFormedRates(cfg.flags) && k < |cfg.flags|
    requires ComputeBill(cfg, c, cfg.flags[k].name) == Some(b)
    ensures b.surcharge == b.subtotal * cfg.flags[k].rate
  {
    SurchargeOfBill(cfg, c, cfg.flags[k].name, b);
    SurchargeOfEntry(cfg.flags, k, b.subtotal);
  }

  /** The total tax of an assembled bill is its base times the sum of the
      aliquots. */
  lemma TaxesOfBill(taxes: seq<NamedRate>, b: Bill)
    requires Assembled(taxes, b)
    ensures b.totalTaxes == b.base * SumRates(taxes)
  {
    TotalTaxIsProportional(taxes, b.base);
  }

  /** The parts of an assembled bill add up to its total exactly, so the
      tolerance of `verificar_invariantes` is never needed; with
      non-negative parts and rates the total is not negative either and
      the check accepts the bill. */
  lemma AssembledAddsUp(taxes: seq<NamedRate>, b: Bill)
    requires Assembled(taxes, b)
    ensures Recomputed(b) == b.total
  {
  }

  lemma AssembledNonNegative(taxes: seq<NamedRate>, b: Bill)
    requires Assembled(taxes, b)
    requires WellFormedRates(taxes) && b.subtotal >= 0.0 && b.surcharge >= 0.0
    ensures b.total >= 0.0
  {
    TotalTaxNonNegative(taxes, b.base);
  }

  lemma AssembledPassesCheck(taxes: seq<NamedRate>, b: Bill)
    requires Assembled(taxes, b)
    requires WellFormedRates(taxes) && b.subtotal >= 0.0 && b.surcharge >= 0.0
    ensures CheckInvariants(b)
  {
    AssembledAddsUp(taxes, b);
    AssembledNonNegative(taxes, b);
  }

  /** The four relations `BillClosedForm` composes. */
  lemma BillRelations(cfg: Config, c: real, k: nat, b: Bill)
    requires WellFormedRates(cfg.flags) && k < |cfg.flags|
    requires ComputeBill(cfg, c, cfg.flags[k].name) == Some(b)
    ensures b.surcharge == b.subtotal * cfg.flags[k].rate
    ensures b.base == b.subtotal + b.surcharge
    ensures b.totalTaxes == b.base * SumRates(cfg.taxes)
    ensures b.total == b.base + b.totalTaxes
  {
    BillSurcharge(cfg, c, k, b);
    BaseOfBill(cfg, c, cfg.flags[k].name, b);
    TaxListOfBill(cfg, c, cfg.flags[k].name, b);
    TotalTaxOfBill(cfg, c, cfg.flags[k].name, b);
    TotalTaxIsProportional(cfg.taxes, b.base);
    TotalOfBill(cfg, c, cfg.flags[k].name, b);
  }

  /** The arithmetic step of `BillClosedForm`: a surcharge at rate `f`
      and taxes at summed aliquot `t` scale the subtotal twice. */
  lemma ChargesCompose(subtotal: real, f: real, t: real, surcharge: real, base: real, taxes: real, total: real)
    requires surcharge == subtotal * f && base == subtotal + surcharge
    requires taxes == base * t && total == base + taxes
    ensures base == subtotal * (1.0 + f)
    ensures total == subtotal * (1.0 + f) * (1.0 + t)
  {
    ScaleSum(subtotal, f);
    ScaleSum(base, t);
  }

  /** The totals of a computed bill in closed form: the base is the
      subtotal scaled by the flag's rate, and the total is the subtotal
      scaled by the flag's rate and by the sum of the aliquots. */
  lemma BillClosedForm(cfg: Config, c: real, k: nat, b: Bill)
    requires WellFormedRates(cfg.flags) && k < |cfg.flags|
    requires ComputeBill(cfg, c, cfg.flags[k].name) == Some(b)
    ensures b.base == b.subtotal * (1.0 + cfg.flags[k].rate)
    ensures b.total == b.subtotal * (1.0 + cfg.flags[k].rate) * (1.0 + SumRates(cfg.taxes))
  {
    BillRelations(cfg, c, k, b);
    ChargesCompose(b.subtotal, cfg.flags[k].rate, SumRates(cfg.taxes), b.surcharge, b.base, b.totalTaxes, b.total);
  }

  lemma {:induction false} SumAmountsNonNegative(items: seq<LineItem>)
    requires forall k :: 0 <= k < |items| ==> items[k].amount >= 0.0
    ensures SumAmounts(items) >= 0.0
  {
    if items != [] {
      SumAmountsNonNegative(items[1..]);
    }
  }

  /** Every bracket amount, and so the subtotal, is non-negative. */
  lemma SubtotalNonNegative(bs: seq<Bracket>, c: real)
    requires WellFormedBrackets(bs)
    ensures SumAmounts(Breakdown(bs, c)) >= 0.0
  {
    var items := Breakdown(bs, c);
    BreakdownClosedForm(bs, c);
    forall k | 0 <= k < |items| ensures items[k].amount >= 0.0 {
      assert items[k] == ItemFor(bs[k], c);
      if k < |bs| - 1 {
        assert bs[k].upper == Finite(bs[k + 1].lower);
      }
      assert Share(bs[k], c) >= 0.0;
    }
    SumAmountsNonNegative(items);
  }

  /** For a well-formed configuration and a flag of its table, every bill
      adds up exactly, its total is not negative, and so
      `verificar_invariantes` accepts it, whatever the consumption. */
  lemma ComputedBillIsConsistent(cfg: Config, c: real, flag: string)
    requires WellFormed(cfg) && flag in Names(cfg.flags)
    ensures ComputeBill(cfg, c, flag).Some?
    ensures Recomputed(ComputeBill(cfg, c, flag).value) == ComputeBill(cfg, c, flag).value.total
    ensures ComputeBill(cfg, c, flag).value.total >= 0.0
    ensures CheckInvariants(ComputeBill(cfg, c, flag).value)
  {
    var b := ComputeBill(cfg, c, flag).value;
    ComputedBillAssembled(cfg, c, flag, b);
    SubtotalNonNegative(cfg.brackets, c);
    SurchargeNonNegative(cfg.flags, b.subtotal, flag);
    AssembledAddsUp(cfg.taxes, b);
    AssembledNonNegative(cfg.taxes, b);
    AssembledPassesCheck(cfg.taxes, b);
  }

  /** Nothing consumed, nothing billed: no bracket item, and the subtotal,
      surcharge, base, every tax and the totals are zero. */
  lemma NoConsumptionBill(cfg: Config, c: real, flag: string, b: Bill)
    requires c <= 0.0 && ComputeBill(cfg, c, flag) == Some(b)
    ensures b.items == []
    ensures b.subtotal == 0.0 && b.surcharge == 0.0 && b.base == 0.0
    ensures |b.taxes| == |cfg.taxes|
    ensures forall k :: 0 <= k < |b.taxes| ==> b.taxes[k].amount == 0.0
    ensures b.totalTaxes == 0.0 && b.total == 0.0
  {
    ComputedBillAssembled(cfg, c, flag, b);
    assert b.subtotal == 0.0;
    assert b.base == 0.0;
    ZeroBaseTaxes(cfg.taxes);
    ZeroBaseTotalTax(cfg.taxes);
  }

  /** Inputs accepted by `validar_entradas` always produce a bill, and
      `verificar_invariantes` accepts it. */
  lemma ValidatedInputsGiveConsistentBill(cfg: Config, consumption: string, flag: string)
    requires WellFormed(cfg)
    requires ValidateInputs(cfg.flags, consumption, flag).Success?
    ensures ComputeBill(cfg, ValidateInputs(cfg.flags, consumption, flag).value.0,
                        ValidateInputs(cfg.flags, consumption, flag).value.1).Some?
    ensures CheckInvariants(ComputeBill(cfg, ValidateInputs(cfg.flags, consumption, flag).value.0,
                                        ValidateInputs(cfg.flags, consumption, flag).value.1).value)
  {
    var v := ValidateInputs(cfg.flags, consumption, flag).value;
    ComputedBillIsConsistent(cfg, v.0, v.1);
  }
}
