/** The configuration tables of the billing pipeline: the progressive
    consumption brackets, the tariff flags and the taxes
    (faturamento_energia.py, lines 25-44). They are values handed to every
    calculation, so that an alternative tariff schedule can be used. */
module Tariff {
  import opened Wrappers

  /** Upper bound of a bracket. The top bracket has none (`Unbounded`)
      instead of a floating-point infinity. */
  datatype Bound = Finite(kwh: real) | Unbounded

  /** Consumption from `lower` up to `upper` kWh is billed at `rate` per kWh. */
  datatype Bracket = Bracket(lower: real, upper: Bound, rate: real)

  /** An entry of an ordered name-to-rate table: a tariff flag with the
      fraction of the subtotal it adds, or a tax with its aliquot. */
  datatype NamedRate = NamedRate(name: string, rate: real)

  datatype Config = Config(brackets: seq<Bracket>, flags: seq<NamedRate>, taxes: seq<NamedRate>)

  /** The brackets start at zero, are contiguous, have positive widths and
      positive rates, and only the last one is unbounded. */
  predicate WellFormedBrackets(bs: seq<Bracket>)
  {
    && |bs| > 0
    && bs[0].lower == 0.0
    && (forall k :: 0 <= k < |bs| - 1 ==> bs[k].upper == Finite(bs[k + 1].lower))
    && bs[|bs| - 1].upper == Unbounded
    && (forall k :: 0 <= k < |bs| && bs[k].upper.Finite? ==> bs[k].lower < bs[k].upper.kwh)
    && (forall k :: 0 <= k < |bs| ==> bs[k].rate > 0.0)
  }

  /** The keys of a table, in table order (the `keys()` of a Python dict). */
  function Names(t: seq<NamedRate>): seq<string>
  {
    seq(|t|, k requires 0 <= k < |t| => t[k].name)
  }

  /** A dict holds each key once, and every rate is non-negative. */
  predicate WellFormedRates(t: seq<NamedRate>)
  {
    && (forall i, j :: 0 <= i < j < |t| ==> t[i].name != t[j].name)
    && (forall k :: 0 <= k < |t| ==> t[k].rate >= 0.0)
  }

  predicate WellFormed(c: Config)
  {
    WellFormedBrackets(c.brackets) && WellFormedRates(c.flags) && WellFormedRates(c.taxes)
  }

  /** The rate stored under `name` (the `BANDEIRAS[bandeira]` subscript);
      `None` where Python raises `KeyError`. */
  function RateOf(t: seq<NamedRate>, name: string): (r: Option<real>)
    ensures r.Some? <==> name in Names(t)
    ensures r.Some? && (forall k :: 0 <= k < |t| ==> t[k].rate >= 0.0) ==> r.value >= 0.0
  {
    if |t| == 0 then None
    else
      assert Names(t) == [t[0].name] + Names(t[1..]);
      if t[0].name == name then Some(t[0].rate)
      else RateOf(t[1..], name)
  }

  /** With distinct names, the rate found is the one of the entry carrying
      that name. */
  lemma {:induction false} RateOfEntry(t: seq<NamedRate>, k: nat)
    requires WellFormedRates(t) && k < |t|
    ensures RateOf(t, t[k].name) == Some(t[k].rate)
  {
    if k > 0 {
      assert t[0].name != t[k].name;
      assert WellFormedRates(t[1..]) by {
        forall i, j | 0 <= i < j < |t| - 1 ensures t[1..][i].name != t[1..][j].name {
          assert t[i + 1].name != t[j + 1].name;
        }
      }
      RateOfEntry(t[1..], k - 1);
    }
  }

  /** In a well-formed table the lower bounds strictly increase. */
  lemma {:induction false} LowerBoundsIncrease(bs: seq<Bracket>, i: nat, j: nat)
    requires WellFormedBrackets(bs) && i < j < |bs|
    ensures bs[i].lower < bs[j].lower
    decreases j - i
  {
    assert bs[i].upper == Finite(bs[i + 1].lower);
    if i + 1 < j {
      LowerBoundsIncrease(bs, i + 1, j);
    }
  }
}
