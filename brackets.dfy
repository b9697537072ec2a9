/** The progressive bracket tariff: `calcular_faixa` and the bracket loop
    of `calcular_tarifacao_por_faixas` (faturamento_energia.py, lines
    114-162). */
module Brackets {
  import opened Wrappers
  import opened Tariff

  /** The label "inicio-fim kWh" of a bracket, kept as the integers it
      prints; the top bracket prints no upper number. */
  datatype RangeLabel = RangeLabel(from: int, upTo: Option<int>)

  /** One emitted entry of the breakdown: `faixa`, `kwh`, `tarifa`, `valor`. */
  datatype LineItem = LineItem(range: RangeLabel, kwh: real, rate: real, amount: real)

  /** Python's `int()` on a float: truncation toward zero. */
  function Truncate(x: real): int
  {
    if x >= 0.0 then x.Floor else -((-x).Floor)
  }

  function LabelOf(b: Bracket): RangeLabel
  {
    RangeLabel(Truncate(b.lower),
               match b.upper
               case Finite(u) => Some(Truncate(u))
               case Unbounded => None)
  }

  /** `n` is `x` with its fractional part dropped: the largest integer
      not above `x` for `x >= 0`, the smallest not below it otherwise. */
  predicate TruncatesTowardZero(x: real, n: int)
  {
    if x >= 0.0 then 0 <= n && n as real <= x < n as real + 1.0
    else n <= 0 && n as real - 1.0 < x <= n as real
  }

  lemma TruncateTowardZero(x: real)
    ensures TruncatesTowardZero(x, Truncate(x))
  {
  }

  /** The label shows each bound truncated toward zero, and only the
      unbounded bracket has an open label. */
  lemma LabelOfBounds(b: Bracket)
    ensures LabelOf(b).upTo.None? <==> b.upper == Unbounded
    ensures TruncatesTowardZero(b.lower, LabelOf(b).from)
    ensures b.upper.Finite? ==> TruncatesTowardZero(b.upper.kwh, LabelOf(b).upTo.value)
  {
    TruncateTowardZero(b.lower);
    if b.upper.Finite? {
      TruncateTowardZero(b.upper.kwh);
    }
  }

  /** `calcular_faixa`: the kWh taken by bracket `b` out of `remaining`,
      `min(remaining, fim - inicio)`, and what they cost. */
  function ApplyBracket(remaining: real, b: Bracket): (r: (real, real))
    ensures r.0 <= remaining
    ensures b.upper.Finite? ==> r.0 <= b.upper.kwh - b.lower
    ensures r.0 == remaining || (b.upper.Finite? && r.0 == b.upper.kwh - b.lower)
    ensures r.1 == r.0 * b.rate
  {
    var used :=
      match b.upper
      case Unbounded => remaining
      case Finite(upper) => if remaining <= upper - b.lower then remaining else upper - b.lower;
    (used, used * b.rate)
  }

  /** With something left, a bracket of non-negative width and a
      non-negative rate, the quantity taken and its cost are not negative. */
  lemma ApplyBracketNonNegative(remaining: real, b: Bracket)
    requires remaining >= 0.0 && b.rate >= 0.0
    requires b.upper.Finite? ==> b.lower <= b.upper.kwh
    ensures ApplyBracket(remaining, b).0 >= 0.0
    ensures ApplyBracket(remaining, b).1 >= 0.0
  {
    var r := ApplyBracket(remaining, b);
    assert r.0 >= 0.0;
    NonNegativeCost(r.0, b.rate);
  }

  lemma NonNegativeCost(kwh: real, rate: real)
    requires kwh >= 0.0 && rate >= 0.0
    ensures kwh * rate >= 0.0
  {
  }

  /** What the bracket loop emits once it reaches bracket `i` with
      `remaining` kWh left to bill: it stops once nothing is left, and a
      bracket that takes nothing emits no item. */
  function BreakdownFrom(bs: seq<Bracket>, i: nat, remaining: real): seq<LineItem>
    decreases |bs| - i
  {
    if i >= |bs| || remaining <= 0.0 then []
    else
      var r := ApplyBracket(remaining, bs[i]);
      (if r.0 > 0.0 then [LineItem(LabelOf(bs[i]), r.0, bs[i].rate, r.1)] else [])
        + BreakdownFrom(bs, i + 1, remaining - r.0)
  }

  /** `calcular_tarifacao_por_faixas` as a function of its input. */
  function Breakdown(bs: seq<Bracket>, consumption: real): seq<LineItem>
  {
    BreakdownFrom(bs, 0, consumption)
  }

  /** The loop itself: `consumo_restante` goes down bracket by bracket,
      `resultados` grows by one item per bracket used, and the loop breaks
      once nothing is left. */
  method CalculateBreakdown(bs: seq<Bracket>, consumption: real) returns (items: seq<LineItem>)
    ensures items == Breakdown(bs, consumption)
  {
    var remaining := consumption;
    items := [];
    for i := 0 to |bs|
      invariant items + BreakdownFrom(bs, i, remaining) == Breakdown(bs, consumption)
    {
      if remaining <= 0.0 {
        break;
      }
      var r := ApplyBracket(remaining, bs[i]);
      ghost var rest := BreakdownFrom(bs, i + 1, remaining - r.0);
      if r.0 > 0.0 {
        var item := LineItem(LabelOf(bs[i]), r.0, bs[i].rate, r.1);
        assert items + ([item] + rest) == (items + [item]) + rest;
        items := items + [item];
      }
      remaining := remaining - r.0;
    }
  }

  /** Sum of the kWh of the items. */
  function TotalKwh(items: seq<LineItem>): real
  {
    if items == [] then 0.0 else items[0].kwh + TotalKwh(items[1..])
  }

  /** The share of a total consumption `c` that lies inside bracket `b`:
      nothing below its lower bound, at most its width. */
  function Share(b: Bracket, c: real): real
  {
    if c <= b.lower then 0.0
    else if b.upper.Finite? && b.upper.kwh <= c then b.upper.kwh - b.lower
    else c - b.lower
  }

  /** The item bracket `b` contributes to a bill for `c` kWh. */
  function ItemFor(b: Bracket, c: real): LineItem
  {
    LineItem(LabelOf(b), Share(b, c), b.rate, Share(b, c) * b.rate)
  }

  /** There is at most one item per bracket. */
  lemma {:induction false} BreakdownLength(bs: seq<Bracket>, i: nat, remaining: real)
    requires i <= |bs|
    ensures |BreakdownFrom(bs, i, remaining)| <= |bs| - i
    decreases |bs| - i
  {
    if i < |bs| && remaining > 0.0 {
      BreakdownLength(bs, i + 1, remaining - ApplyBracket(remaining, bs[i]).0);
    }
  }

  /** An item takes a positive quantity and costs that quantity at its
      rate. */
  predicate Priced(item: LineItem)
  {
    item.kwh > 0.0 && item.amount == item.kwh * item.rate
  }

  /** Every item of the breakdown is priced at its bracket's rate. */
  lemma {:induction false} BreakdownItems(bs: seq<Bracket>, i: nat, remaining: real)
    requires i <= |bs|
    ensures forall k :: 0 <= k < |BreakdownFrom(bs, i, remaining)| ==> Priced(BreakdownFrom(bs, i, remaining)[k])
    decreases |bs| - i
  {
    if i < |bs| && remaining > 0.0 {
      var r := ApplyBracket(remaining, bs[i]);
      var head: seq<LineItem> := if r.0 > 0.0 then [LineItem(LabelOf(bs[i]), r.0, bs[i].rate, r.1)] else [];
      var rest := BreakdownFrom(bs, i + 1, remaining - r.0);
      assert BreakdownFrom(bs, i, remaining) == head + rest;
      BreakdownItems(bs, i + 1, remaining - r.0);
      forall k | 0 <= k < |head + rest| ensures Priced((head + rest)[k]) {
        if k >= |head| {
          assert (head + rest)[k] == rest[k - |head|];
        }
      }
    }
  }

  /** One pass of the loop, for a bracket that takes something. */
  lemma UnfoldBreakdown(bs: seq<Bracket>, i: nat, remaining: real, used: real)
    requires i < |bs| && remaining > 0.0
    requires used == ApplyBracket(remaining, bs[i]).0 && used > 0.0
    ensures BreakdownFrom(bs, i, remaining) ==
              [LineItem(LabelOf(bs[i]), used, bs[i].rate, used * bs[i].rate)]
              + BreakdownFrom(bs, i + 1, remaining - used)
  {
    assert ApplyBracket(remaining, bs[i]).1 == used * bs[i].rate;
  }

  /** In a well-formed table every bracket is wide enough to take part of
      a positive remainder. */
  lemma BracketTakes(bs: seq<Bracket>, i: nat, remaining: real)
    requires WellFormedBrackets(bs) && i < |bs| && remaining > 0.0
    ensures ApplyBracket(remaining, bs[i]).0 > 0.0
  {
    if i < |bs| - 1 {
      assert bs[i].upper == Finite(bs[i + 1].lower);
    }
  }

  lemma {:induction false} CoversFrom(bs: seq<Bracket>, i: nat, remaining: real)
    requires WellFormedBrackets(bs) && i < |bs| && remaining >= 0.0
    ensures TotalKwh(BreakdownFrom(bs, i, remaining)) == remaining
    decreases |bs| - i
  {
    if remaining > 0.0 {
      var used := ApplyBracket(remaining, bs[i]).0;
      BracketTakes(bs, i, remaining);
      UnfoldBreakdown(bs, i, remaining, used);
      if i < |bs| - 1 {
        CoversFrom(bs, i + 1, remaining - used);
      }
    }
  }

  /** With a well-formed table ending in an unbounded bracket, the billed
      quantities add up exactly to the consumption. */
  lemma BreakdownCoversConsumption(bs: seq<Bracket>, consumption: real)
    requires WellFormedBrackets(bs) && consumption >= 0.0
    ensures TotalKwh(Breakdown(bs, consumption)) == consumption
  {
    CoversFrom(bs, 0, consumption);
  }

  /** `items` is what the brackets from `i` on contribute to a bill for
      `c` kWh, in closed form. */
  predicate ClosedFrom(bs: seq<Bracket>, c: real, i: nat, items: seq<LineItem>)
    requires i <= |bs|
  {
    && |items| <= |bs| - i
    && (forall k :: i <= k < |bs| ==> (k - i < |items| <==> bs[k].lower < c))
    && (forall k :: i <= k < i + |items| ==> items[k - i] == ItemFor(bs[k], c))
  }

  /** The brackets from `i` on all start at or above `c`: nothing is emitted. */
  lemma ClosedNone(bs: seq<Bracket>, c: real, i: nat)
    requires WellFormedBrackets(bs) && i < |bs| && c <= bs[i].lower
    ensures ClosedFrom(bs, c, i, [])
  {
    forall k | i < k < |bs| ensures c <= bs[k].lower {
      LowerBoundsIncrease(bs, i, k);
    }
  }

  /** Bracket `i` is the last one reached. */
  lemma ClosedOne(bs: seq<Bracket>, c: real, i: nat)
    requires WellFormedBrackets(bs) && i < |bs| && bs[i].lower < c
    requires i + 1 < |bs| ==> c <= bs[i + 1].lower
    ensures ClosedFrom(bs, c, i, [ItemFor(bs[i], c)])
  {
    if i + 1 < |bs| {
      ClosedNone(bs, c, i + 1);
    }
  }

  /** Bracket `i` is filled and the later ones carry on. */
  lemma ClosedCons(bs: seq<Bracket>, c: real, i: nat, rest: seq<LineItem>)
    requires WellFormedBrackets(bs) && i + 1 < |bs| && bs[i + 1].lower <= c
    requires ClosedFrom(bs, c, i + 1, rest)
    ensures ClosedFrom(bs, c, i, [ItemFor(bs[i], c)] + rest)
  {
    LowerBoundsIncrease(bs, i, i + 1);
    var items := [ItemFor(bs[i], c)] + rest;
    forall k | i < k < i + |items| ensures items[k - i] == ItemFor(bs[k], c) {
      assert items[k - i] == rest[k - (i + 1)];
    }
  }

  /** Bracket `i` takes the rest of `c`, and the loop ends there. */
  lemma BreakdownStopsAt(bs: seq<Bracket>, c: real, i: nat)
    requires WellFormedBrackets(bs) && i < |bs| && bs[i].lower < c
    requires i + 1 < |bs| ==> c <= bs[i + 1].lower
    ensures BreakdownFrom(bs, i, c - bs[i].lower) == [ItemFor(bs[i], c)]
  {
    var r := c - bs[i].lower;
    if i + 1 < |bs| {
      assert bs[i].upper == Finite(bs[i + 1].lower);
    }
    assert ApplyBracket(r, bs[i]).0 == r == Share(bs[i], c);
    UnfoldBreakdown(bs, i, r, r);
    assert ItemFor(bs[i], c) == LineItem(LabelOf(bs[i]), r, bs[i].rate, r * bs[i].rate);
    assert BreakdownFrom(bs, i + 1, r - r) == [];
  }

  /** Bracket `i` is filled up to its upper bound and the loop moves on. */
  lemma BreakdownPassesOver(bs: seq<Bracket>, c: real, i: nat)
    requires i + 1 < |bs| && bs[i].upper == Finite(bs[i + 1].lower)
    requires bs[i].lower < bs[i + 1].lower <= c
    ensures BreakdownFrom(bs, i, c - bs[i].lower) ==
              [ItemFor(bs[i], c)] + BreakdownFrom(bs, i + 1, c - bs[i + 1].lower)
  {
    var r := c - bs[i].lower;
    var w := bs[i + 1].lower - bs[i].lower;
    assert ApplyBracket(r, bs[i]).0 == w == Share(bs[i], c);
    UnfoldBreakdown(bs, i, r, w);
    assert ItemFor(bs[i], c) == LineItem(LabelOf(bs[i]), w, bs[i].rate, w * bs[i].rate);
    assert r - w == c - bs[i + 1].lower;
  }

  lemma {:induction false} ClosedFormFrom(bs: seq<Bracket>, c: real, i: nat)
    requires WellFormedBrackets(bs) && i < |bs|
    ensures ClosedFrom(bs, c, i, BreakdownFrom(bs, i, c - bs[i].lower))
    decreases |bs| - i
  {
    if c <= bs[i].lower {
      ClosedNone(bs, c, i);
    } else if i + 1 == |bs| || c <= bs[i + 1].lower {
      BreakdownStopsAt(bs, c, i);
      ClosedOne(bs, c, i);
    } else {
      assert bs[i].upper == Finite(bs[i + 1].lower);
      assert bs[i].lower < bs[i].upper.kwh;
      BreakdownPassesOver(bs, c, i);
      ClosedFormFrom(bs, c, i + 1);
      ClosedCons(bs, c, i, BreakdownFrom(bs, i + 1, c - bs[i + 1].lower));
    }
  }

  /** The breakdown in closed form: bracket `k` appears exactly when the
      consumption goes past its lower bound, items come in table order, and
      each bills the share of the consumption inside its bracket. */
  lemma BreakdownClosedForm(bs: seq<Bracket>, c: real)
    requires WellFormedBrackets(bs)
    ensures var items := Breakdown(bs, c);
      && |items| <= |bs|
      && (forall k :: 0 <= k < |bs| ==> (k < |items| <==> bs[k].lower < c))
      && (forall k :: 0 <= k < |items| ==> items[k] == ItemFor(bs[k], c))
  {
    ClosedFormFrom(bs, c, 0);
  }

  /** Lower brackets fill first: every item but the last bills its whole
      bracket, so no item follows a bracket that was only partly used. */
  lemma LowerBracketsFillFirst(bs: seq<Bracket>, c: real)
    requires WellFormedBrackets(bs)
    ensures |Breakdown(bs, c)| <= |bs|
    ensures var items := Breakdown(bs, c);
      forall k :: 0 <= k < |items| - 1 ==>
        bs[k].upper.Finite? && items[k].kwh == bs[k].upper.kwh - bs[k].lower
  {
    BreakdownClosedForm(bs, c);
    var items := Breakdown(bs, c);
    forall k | 0 <= k < |items| - 1
      ensures bs[k].upper.Finite? && items[k].kwh == bs[k].upper.kwh - bs[k].lower
    {
      assert bs[k].upper == Finite(bs[k + 1].lower);
      assert bs[k + 1].lower < c;
      assert items[k] == ItemFor(bs[k], c);
    }
  }
}
