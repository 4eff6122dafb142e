/** Slicing an order over time: TWAP, VWAP and iceberg plans, whose slice
    quantities are rounded to eight decimals, and the choice between them. */
module OrderSlicing {
  import opened Options
  import opened RealMath

  datatype Kind = Limit | Market

  datatype Slice = Slice(number: nat, quantity: real, kind: Kind)

  function Quantities(slices: seq<Slice>): (qs: seq<real>)
    ensures |qs| == |slices| && forall i :: 0 <= i < |slices| ==> qs[i] == slices[i].quantity
  {
    seq(|slices|, i requires 0 <= i < |slices| => slices[i].quantity)
  }

  function PlannedTotal(slices: seq<Slice>): real { Sum(Quantities(slices)) }

  lemma QuantitiesAppend(slices: seq<Slice>, s: Slice)
    ensures Quantities(slices + [s]) == Quantities(slices) + [s.quantity]
  {
  }

  // Slices that are each rounded from exact parts miss the exact total by at
  // most half a unit per slice.
  lemma RoundedParts(slices: seq<Slice>, exact: seq<real>)
    requires |slices| == |exact|
    requires forall i :: 0 <= i < |exact| ==> slices[i].quantity == Round8(exact[i])
    ensures Abs(PlannedTotal(slices) - Sum(exact)) <= Times(|slices|, HALF_UNIT)
  {
    hide Round8, Sum, Times;
    var qs := Quantities(slices);
    forall i | 0 <= i < |qs| ensures Abs(qs[i] - exact[i]) <= HALF_UNIT {
      Round8Error(exact[i]);
    }
    SumClose(qs, exact, HALF_UNIT);
  }

  // ---------- TWAP ----------

  // Equal parts of a quantity.
  function Parts(part: real, n: nat): (ps: seq<real>)
    ensures |ps| == n && forall i :: 0 <= i < n ==> ps[i] == part
  {
    if n == 0 then [] else Parts(part, n - 1) + [part]
  }

  lemma {:induction false} SumParts(part: real, n: nat)
    ensures Sum(Parts(part, n)) == Times(n, part)
  {
    if n != 0 {
      SumParts(part, n - 1);
      SumAppend(Parts(part, n - 1), part);
    }
  }

  lemma PartsAddUp(quantity: real, n: nat)
    requires n > 0
    ensures Sum(Parts(quantity / n as real, n)) == quantity
  {
    var part := quantity / n as real;
    SumParts(part, n);
    TimesIsProduct(n, part);
    assert part * n as real == quantity;
  }

  // What each slice of a TWAP plan is: an equal part, the last one at market.
  ghost predicate IsTwap(slices: seq<Slice>, quantity: real, duration: int, n: int)
  {
    if n <= 0 || duration <= 0 then slices == []
    else
      |slices| == n && forall i :: 0 <= i < n ==>
        slices[i] == Slice(i + 1, Round8(quantity / n as real), if i < n - 1 then Limit else Market)
  }

  method TwapPlan(quantity: real, durationMinutes: int, numSlices: int) returns (slices: seq<Slice>)
    ensures IsTwap(slices, quantity, durationMinutes, numSlices)
  {
    slices := [];
    if numSlices <= 0 || durationMinutes <= 0 {
      return;
    }
    var sliceQty := quantity / numSlices as real;
    for i := 0 to numSlices
      invariant |slices| == i
      invariant forall k :: 0 <= k < i ==>
        slices[k] == Slice(k + 1, Round8(sliceQty), if k < numSlices - 1 then Limit else Market)
    {
      slices := slices + [Slice(i + 1, Round8(sliceQty), if i < numSlices - 1 then Limit else Market)];
    }
  }

  // A TWAP plan trades the order, up to half a unit per slice; only one that
  // cannot be sliced trades nothing.
  lemma TwapConserves(slices: seq<Slice>, quantity: real, duration: int, n: int)
    requires IsTwap(slices, quantity, duration, n)
    ensures n > 0 && duration > 0 ==> Abs(PlannedTotal(slices) - quantity) <= Times(n, HALF_UNIT)
    ensures n <= 0 || duration <= 0 ==> PlannedTotal(slices) == 0.0
  {
    hide Round8;
    if n > 0 && duration > 0 {
      var parts := Parts(quantity / n as real, n);
      PartsAddUp(quantity, n);
      RoundedParts(slices, parts);
    }
  }

  // ---------- VWAP ----------

  const DEFAULT_PROFILE: seq<real> := [1.2, 1.0, 0.8, 0.7, 0.6, 0.5, 0.5, 0.6, 0.7, 0.8, 1.0, 1.2]

  // A profile is padded with 0.5 or cut to the number of slices.
  function Fit(profile: seq<real>, n: nat): (p: seq<real>)
    ensures |p| == n
    ensures forall i :: 0 <= i < n ==> p[i] == if i < |profile| then profile[i] else 0.5
  {
    if |profile| < n then profile + Parts(0.5, n - |profile|) else profile[..n]
  }

  function ProfileFor(volumeProfile: Option<seq<real>>, n: nat): seq<real>
  {
    Fit(if volumeProfile.Some? then volumeProfile.value else DEFAULT_PROFILE, n)
  }

  ghost predicate IsVwap(slices: seq<Slice>, quantity: real, volumeProfile: Option<seq<real>>, n: nat)
  {
    var p := ProfileFor(volumeProfile, n);
    if Sum(p) <= 0.0 then IsTwap(slices, quantity, 30, n)
    else
      |slices| == n && forall i :: 0 <= i < n ==>
        slices[i] == Slice(i + 1, Round8(Share(quantity, p[i], Sum(p))), Limit)
  }

  method FitProfile(volumeProfile: Option<seq<real>>, numSlices: nat) returns (profile: seq<real>)
    ensures profile == ProfileFor(volumeProfile, numSlices) && |profile| == numSlices
  {
    profile := if volumeProfile.Some? then volumeProfile.value else DEFAULT_PROFILE;
    if |profile| < numSlices {
      profile := profile + Parts(0.5, numSlices - |profile|);
    }
    if |profile| > numSlices {
      profile := profile[..numSlices];
    }
  }

  method VwapPlan(quantity: real, volumeProfile: Option<seq<real>>, numSlices: nat) returns (slices: seq<Slice>)
    ensures IsVwap(slices, quantity, volumeProfile, numSlices)
  {
    hide Share, Round8, ProfileFor, Sum;
    var profile := FitProfile(volumeProfile, numSlices);
    var totalVol := Sum(profile);
    if totalVol <= 0.0 {
      slices := TwapPlan(quantity, 30, numSlices);
      return;
    }
    slices := [];
    for i := 0 to numSlices
      invariant |slices| == i
      invariant forall k :: 0 <= k < i ==>
        slices[k] == Slice(k + 1, Round8(Share(quantity, profile[k], totalVol)), Limit)
    {
      slices := slices + [Slice(i + 1, Round8(Share(quantity, profile[i], totalVol)), Limit)];
    }
  }

  // The exact parts of a VWAP plan.
  function Shares(quantity: real, p: seq<real>, total: real): (r: seq<real>)
    requires total != 0.0
    ensures |r| == |p|
  {
    if p == [] then [] else Shares(quantity, p[..|p| - 1], total) + [Share(quantity, p[|p| - 1], total)]
  }

  lemma {:induction false} ShareAt(quantity: real, p: seq<real>, total: real, i: nat)
    requires total != 0.0 && i < |p|
    ensures Shares(quantity, p, total)[i] == Share(quantity, p[i], total)
  {
    hide Share;
    if i < |p| - 1 { ShareAt(quantity, p[..|p| - 1], total, i); }
  }

  lemma {:induction false} SumShares(quantity: real, p: seq<real>, total: real)
    requires total != 0.0
    ensures Sum(Shares(quantity, p, total)) == Share(quantity, Sum(p), total)
  {
    hide Share;
    if p == [] {
      ShareOfNothing(quantity, total);
    } else {
      var init, x := p[..|p| - 1], p[|p| - 1];
      SumShares(quantity, init, total);
      SumAppend(Shares(quantity, init, total), Share(quantity, x, total));
      ShareSplits(quantity, Sum(init), x, total);
    }
  }

  lemma SharesAddUp(quantity: real, p: seq<real>)
    requires Sum(p) > 0.0
    ensures Sum(Shares(quantity, p, Sum(p))) == quantity
  {
    var total := Sum(p);
    SumShares(quantity, p, total);
    QuotientIs(total, total, 1.0);
  }

  // A VWAP plan trades the order up to half a unit per slice, with any volume
  // profile, padded or cut, and when it falls back to TWAP.
  lemma VwapConserves(slices: seq<Slice>, quantity: real, volumeProfile: Option<seq<real>>, n: nat)
    requires IsVwap(slices, quantity, volumeProfile, n) && n > 0
    ensures |slices| == n
    ensures Abs(PlannedTotal(slices) - quantity) <= Times(n, HALF_UNIT)
  {
    var p := ProfileFor(volumeProfile, n);
    assert |p| == n;
    hide Round8, ProfileFor, Share;
    if Sum(p) <= 0.0 {
      TwapConserves(slices, quantity, 30, n);
    } else {
      VwapParts(slices, quantity, p);
    }
  }

  lemma VwapParts(slices: seq<Slice>, quantity: real, p: seq<real>)
    requires Sum(p) > 0.0 && |slices| == |p|
    requires forall i :: 0 <= i < |p| ==> slices[i].quantity == Round8(Share(quantity, p[i], Sum(p)))
    ensures Abs(PlannedTotal(slices) - quantity) <= Times(|slices|, HALF_UNIT)
  {
    hide Round8, Times, Sum, Share, PlannedTotal;
    var exact := Shares(quantity, p, Sum(p));
    forall i | 0 <= i < |p| ensures slices[i].quantity == Round8(exact[i]) {
      ShareAt(quantity, p, Sum(p), i);
    }
    SharesAddUp(quantity, p);
    RoundedParts(slices, exact);
  }

  // ---------- iceberg ----------

  function Ceil(x: real): int { -((-x).Floor) }

  // The amount shown per slice: a tenth of the order unless one is given.
  function Display(total: real, display: real): real { if display <= 0.0 then total * 0.10 else display }

  function IcebergCount(total: real, display: real): nat
    requires display != 0.0
  {
    var n := Ceil(total / display);
    if n > 1 then n else 1
  }

  // The slice quantities: each is the display size or what the slices before
  // it, as rounded, have left over.
  function IcebergQuantities(total: real, display: real, n: nat, rounded: bool): (qs: seq<real>)
    ensures |qs| == n
  {
    if n == 0 then []
    else
      var prev := IcebergQuantities(total, display, n - 1, rounded);
      var qty := Min(display, total - Sum(prev));
      prev + [if rounded then Round8(qty) else qty]
  }

  datatype IcebergPlan = IcebergPlan(slices: seq<Slice>) | DivisionByZero

  ghost predicate IsIceberg(plan: IcebergPlan, total: real, display: real)
  {
    var d := Display(total, display);
    if d == 0.0 then plan.DivisionByZero?
    else
      && plan.IcebergPlan?
      && Quantities(plan.slices) == IcebergQuantities(total, d, IcebergCount(total, d), true)
      && forall i :: 0 <= i < |plan.slices| ==> plan.slices[i].number == i + 1 && plan.slices[i].kind == Limit
  }

  method IcebergSlices(total: real, displaySize: real) returns (plan: IcebergPlan)
    ensures IsIceberg(plan, total, displaySize)
    ensures plan.DivisionByZero? <==> displaySize <= 0.0 && total == 0.0
  {
    hide Round8, Sum, IcebergQuantities, Quantities;
    var display := displaySize;
    if display <= 0.0 {
      display := total * 0.10;
    }
    if display == 0.0 {
      return DivisionByZero;
    }
    var ceiling := Ceil(total / display);
    var slices := Refill(total, display, if ceiling > 1 then ceiling else 1);
    plan := IcebergPlan(slices);
  }

  // The slices one after the other, each from what is left at that point.
  method Refill(total: real, display: real, numSlices: nat) returns (slices: seq<Slice>)
    ensures Quantities(slices) == IcebergQuantities(total, display, numSlices, true)
    ensures forall k :: 0 <= k < |slices| ==> slices[k].number == k + 1 && slices[k].kind == Limit
  {
    hide Round8, Sum;
    slices := [];
    for i := 0 to numSlices
      invariant |slices| == i
      invariant Quantities(slices) == IcebergQuantities(total, display, i, true)
      invariant forall k :: 0 <= k < i ==> slices[k].number == k + 1 && slices[k].kind == Limit
    {
      var remaining := total - Sum(Quantities(slices));
      var slice := Slice(i + 1, Round8(Min(display, remaining)), Limit);
      QuantitiesAppend(slices, slice);
      slices := slices + [slice];
    }
  }

  lemma CeilBound(x: real)
    ensures x <= Ceil(x) as real < x + 1.0
  {
  }

  // The number of slices is the least one, from one on, for which the display
  // size times it covers the order.
  lemma CountCovers(total: real, d: real)
    requires d > 0.0
    ensures var n := IcebergCount(total, d);
      n >= 1 && total <= Times(n, d) && (n > 1 ==> Times(n - 1, d) < total)
  {
    hide Times;
    var n, x := IcebergCount(total, d), total / d;
    CeilBound(x);
    assert x * d == total;
    Enough(total, d, n, x);
    if n > 1 { OneLess(total, d, n - 1, x); }
  }

  lemma Enough(total: real, d: real, n: nat, x: real)
    requires d > 0.0 && x * d == total && x <= n as real
    ensures total <= Times(n, d)
  {
    TimesIsProduct(n, d);
    TimesMonotone(x, n as real, d);
  }

  lemma OneLess(total: real, d: real, m: nat, x: real)
    requires d > 0.0 && x * d == total && m as real < x
    ensures Times(m, d) < total
  {
    TimesIsProduct(m, d);
    TimesStrictly(m as real, x, d);
  }

  // One more slice: never more than half a unit over the total.
  lemma IcebergNeverOver(total: real, d: real, n: nat)
    requires n > 0
    ensures Sum(IcebergQuantities(total, d, n, true)) <= total + HALF_UNIT
  {
    hide Round8;
    var prev := IcebergQuantities(total, d, n - 1, true);
    var qty := Min(d, total - Sum(prev));
    Round8Error(qty);
    SumAppend(prev, Round8(qty));
  }

  // n slices fall short by at most n half units of what they can show.
  lemma {:induction false} IcebergShortfall(total: real, d: real, n: nat)
    requires d > 0.0
    ensures Times(n, HALF_UNIT) >= 0.0
    ensures Sum(IcebergQuantities(total, d, n, true)) >= Min(total, Times(n, d)) - Times(n, HALF_UNIT)
  {
    hide Round8;
    if n > 0 {
      IcebergShortfall(total, d, n - 1);
      var prev := IcebergQuantities(total, d, n - 1, true);
      var qty := Min(d, total - Sum(prev));
      Round8Error(qty);
      SumAppend(prev, Round8(qty));
    }
  }

  lemma {:induction false} IcebergExactSum(total: real, d: real, n: nat)
    requires d > 0.0 && n > 0
    ensures Sum(IcebergQuantities(total, d, n, false)) == Min(total, Times(n, d))
  {
    var prev := IcebergQuantities(total, d, n - 1, false);
    SumAppend(prev, Min(d, total - Sum(prev)));
    if n > 1 {
      IcebergExactSum(total, d, n - 1);
    } else {
      assert Times(1, d) == Times(0, d) + d;
    }
  }

  // For every total and display size above zero, and for every positive total
  // with the default one.
  lemma IcebergConserves(plan: IcebergPlan, total: real, display: real)
    requires IsIceberg(plan, total, display) && Display(total, display) > 0.0
    ensures plan.IcebergPlan?
    ensures var sum := PlannedTotal(plan.slices);
      total - Times(|plan.slices|, HALF_UNIT) <= sum <= total + HALF_UNIT
  {
    var d := Display(total, display);
    var n := IcebergCount(total, d);
    hide Display, IcebergQuantities, Times;
    IcebergNeverOver(total, d, n);
    IcebergShortfall(total, d, n);
    CountCovers(total, d);
  }

  // A negative total and no display size: the display size is negative, the
  // first slice trades everything and each later one the display size more.
  lemma {:induction false} IcebergNegative(total: real, d: real, n: nat)
    requires total <= d < 0.0 && n > 0
    ensures Sum(IcebergQuantities(total, d, n, false)) == total + Times(n - 1, d)
  {
    var prev := IcebergQuantities(total, d, n - 1, false);
    SumAppend(prev, Min(d, total - Sum(prev)));
    if n > 1 {
      IcebergNegative(total, d, n - 1);
      TimesNegative(n - 2, d);
    }
  }

  lemma {:induction false} TimesNegative(n: nat, d: real)
    requires d < 0.0
    ensures Times(n, d) <= 0.0 && (n > 0 ==> Times(n, d) < 0.0)
  {
    if n > 0 { TimesNegative(n - 1, d); }
  }

  // Without rounding, the slices add up to the order exactly when the display
  // size in use is positive.
  lemma IcebergExactIff(total: real, display: real)
    requires Display(total, display) != 0.0
    ensures var d := Display(total, display);
      Sum(IcebergQuantities(total, d, IcebergCount(total, d), false)) == total <==> d > 0.0
  {
    var d := Display(total, display);
    var n := IcebergCount(total, d);
    if d > 0.0 {
      CountCovers(total, d);
      IcebergExactSum(total, d, n);
    } else {
      assert total * 0.10 == d && total < 0.0;
      QuotientIs(total, d, 10.0);
      assert n == 10;
      IcebergNegative(total, d, n);
      TimesNegative(n - 1, d);
    }
  }

  // ---------- the iceberg planner on a negative total ----------

  lemma RoundsToZero(x: real)
    requires -HALF_UNIT <= x <= HALF_UNIT
    ensures Round8(x) == 0.0
  {
    assert Nearest(x * 100000000.0) == 0;
  }

  lemma RoundsDown(x: real)
    requires x < -HALF_UNIT
    ensures Round8(x) <= -2.0 * HALF_UNIT
  {
    assert Nearest(x * 100000000.0) <= -1;
  }

  lemma {:induction false} TimesZero(n: nat)
    ensures Times(n, 0.0) == 0.0
  {
    if n > 0 { TimesZero(n - 1); }
  }

  // As planned, with every slice rounded: the first slice trades the whole
  // total and each later one the display size more.
  lemma {:induction false} IcebergNegativeRounded(total: real, d: real, n: nat)
    requires total <= d < 0.0 && n > 0
    ensures Sum(IcebergQuantities(total, d, n, true)) == Round8(total) + Times(n - 1, Round8(d))
  {
    hide Round8;
    var prev := IcebergQuantities(total, d, n - 1, true);
    var qty := Min(d, total - Sum(prev));
    SumAppend(prev, Round8(qty));
    if n > 1 {
      IcebergNegativeRounded(total, d, n - 1);
      hide Sum, IcebergQuantities;
      LaterSlice(total, d, n - 2, qty);
    }
  }

  // A slice after the first: what the display size rounds to.
  lemma LaterSlice(total: real, d: real, m: nat, qty: real)
    requires d < 0.0 && qty == Min(d, total - (Round8(total) + Times(m, Round8(d))))
    ensures Round8(qty) == Round8(d)
  {
    hide Round8, Times;
    Round8Error(total);
    if d < -HALF_UNIT {
      RoundsDown(d);
      TimesNegative(m, Round8(d));
      assert qty == d;
    } else {
      RoundsToZero(d);
      TimesZero(m);
      RoundsToZero(qty);
    }
  }

  // Below -0.00000005, without a display size, ten slices trade the total and
  // then nine tenths of it again.
  lemma IcebergOverPlans(plan: IcebergPlan, total: real, display: real)
    requires IsIceberg(plan, total, display) && display <= 0.0 && total < 0.0
    ensures plan.IcebergPlan? && |plan.slices| == 10
    ensures PlannedTotal(plan.slices) == Round8(total) + Times(9, Round8(total * 0.10))
    ensures total < -0.00000005 ==> PlannedTotal(plan.slices) <= total - 17.0 * HALF_UNIT
    ensures total >= -0.00000005 ==> Abs(PlannedTotal(plan.slices) - total) <= HALF_UNIT
  {
    hide Round8, IcebergQuantities;
    var d := total * 0.10;
    QuotientIs(total, d, 10.0);
    IcebergNegativeRounded(total, d, 10);
    Round8Error(total);
    TimesIsProduct(9, Round8(d));
    if total < -0.00000005 { RoundsDown(d); } else { RoundsToZero(d); }
  }

  // Exactly when the planned slices add up to the order within half a unit
  // each, for every order and display size for which there is a plan.
  lemma IcebergConservesIff(plan: IcebergPlan, total: real, display: real)
    requires IsIceberg(plan, total, display) && plan.IcebergPlan?
    ensures Abs(PlannedTotal(plan.slices) - total) <= Times(|plan.slices|, HALF_UNIT)
      <==> display > 0.0 || total >= -0.00000005
  {
    hide Round8, IcebergQuantities, PlannedTotal, IsIceberg;
    if display <= 0.0 && total < 0.0 {
      IcebergOverPlans(plan, total, display);
      TimesIsProduct(10, HALF_UNIT);
    } else {
      PlanSize(plan, total, display);
      IcebergConserves(plan, total, display);
      TimesAtLeastOne(|plan.slices|);
    }
  }

  lemma PlanSize(plan: IcebergPlan, total: real, display: real)
    requires IsIceberg(plan, total, display) && plan.IcebergPlan?
    ensures |plan.slices| >= 1 && Display(total, display) != 0.0
  {
    hide Round8, IcebergQuantities;
  }

  lemma {:induction false} TimesAtLeastOne(n: nat)
    requires n >= 1
    ensures Times(n, HALF_UNIT) >= HALF_UNIT
  {
    if n > 1 { TimesAtLeastOne(n - 1); } else { assert Times(0, HALF_UNIT) == 0.0; }
  }

  // ---------- the choice of algorithm ----------

  datatype Algorithm = MarketAlgo | Twap | Vwap | IcebergMulti

  datatype Plan = Plan(algorithm: Algorithm, slices: seq<Slice>)

  function AlgorithmFor(qty: real, urgent: bool): Algorithm
  {
    if urgent then MarketAlgo else if qty < 0.5 then Twap else if qty < 5.0 then Vwap else IcebergMulti
  }

  // What the documentation of the choice says, with 1 counted as large. The
  // limit plan that it names for small patient orders does not exist.
  function DocumentedAlgorithm(qty: real, urgent: bool): Option<Algorithm>
  {
    if qty < 0.1 then (if urgent then Some(MarketAlgo) else None)
    else if qty < 1.0 then Some(Twap)
    else if qty <= 10.0 then Some(Vwap)
    else Some(IcebergMulti)
  }

  // Exactly which orders get the documented algorithm: an order of 0.7, for
  // one, is to be a TWAP and becomes a VWAP.
  lemma AsDocumentedIff(qty: real, urgent: bool)
    ensures DocumentedAlgorithm(qty, urgent) == Some(AlgorithmFor(qty, urgent))
      <==> if urgent then qty < 0.1 else 0.1 <= qty < 0.5 || 1.0 <= qty < 5.0 || 10.0 < qty
    ensures DocumentedAlgorithm(0.7, false) == Some(Twap) && AlgorithmFor(0.7, false) == Vwap
  {
  }

  // Slice i of a VWAP plan by the default volume profile, whose twelve
  // weights add up to 9.6.
  ghost function DailySlice(qty: real, i: nat): Slice
    requires i < 12
  {
    var weight := [1.2, 1.0, 0.8, 0.7, 0.6, 0.5, 0.5, 0.6, 0.7, 0.8, 1.0, 1.2][i];
    Slice(i + 1, Round8(qty * (weight / 9.6)), Limit)
  }

  lemma DefaultTotal()
    ensures Sum(DEFAULT_PROFILE) == 9.6
  {
    hide Sum;
    var p := DEFAULT_PROFILE;
    assert p[..6] + p[6..] == p;
    SumSix(p[..6]);
    SumSix(p[6..]);
    SumConcat(p[..6], p[6..]);
  }

  lemma SumSix(p: seq<real>)
    requires |p| == 6
    ensures Sum(p) == p[0] + p[1] + p[2] + p[3] + p[4] + p[5]
  {
    assert p[..5][..4] == p[..4] && p[..4][..3] == p[..3];
    assert p[..3][..2] == p[..2] && p[..2][..1] == p[..1] && p[..1][..0] == [];
    assert Sum(p[..1]) == p[0];
    assert Sum(p[..2]) == p[0] + p[1];
    assert Sum(p[..4]) == p[0] + p[1] + p[2] + p[3];
  }

  lemma DailySlices(slices: seq<Slice>, qty: real)
    requires IsVwap(slices, qty, None, 12)
    ensures |slices| == 12 && forall i :: 0 <= i < 12 ==> slices[i] == DailySlice(qty, i)
  {
    hide Round8, Sum, IsTwap;
    DefaultTotal();
    assert ProfileFor(None, 12) == DEFAULT_PROFILE;
  }

  // Every order, urgent or not: the slices add up to it within 0.0000001.
  method CreateExecutionPlan(qty: real, urgent: bool) returns (plan: Plan)
    ensures plan.algorithm == AlgorithmFor(qty, urgent)
    ensures if urgent then plan.algorithm == MarketAlgo
            else plan.algorithm == if qty < 0.5 then Twap else if qty < 5.0 then Vwap else IcebergMulti
    ensures urgent || qty < 0.5 ==> IsTwap(plan.slices, qty, 30, |plan.slices|)
    ensures !urgent && 0.5 <= qty < 5.0 ==>
      |plan.slices| == 12 && forall i :: 0 <= i < 12 ==> plan.slices[i] == DailySlice(qty, i)
    ensures !urgent && 5.0 <= qty ==> IsIceberg(IcebergPlan(plan.slices), qty, qty * 0.05)
    ensures |plan.slices| == match plan.algorithm
                             case MarketAlgo => 3
                             case Twap => if qty < 0.01 then 6 else 10
                             case Vwap => 12
                             case IcebergMulti => 20
    ensures Abs(PlannedTotal(plan.slices) - qty) <= 0.0000001
  {
    hide PlannedTotal, Round8, Quantities, IcebergQuantities, DailySlice, IsVwap;
    HalfUnits();
    if qty < 0.01 || urgent {
      var n := if urgent then 3 else 6;
      var slices := TwapPlan(qty, if urgent then 5 else 15, n);
      TwapConserves(slices, qty, if urgent then 5 else 15, n);
      plan := Plan(if urgent then MarketAlgo else Twap, slices);
    } else if qty < 0.5 {
      var slices := TwapPlan(qty, 30, 10);
      TwapConserves(slices, qty, 30, 10);
      plan := Plan(Twap, slices);
    } else if qty < 5.0 {
      var slices := VwapPlan(qty, None, 12);
      VwapConserves(slices, qty, None, 12);
      DailySlices(slices, qty);
      plan := Plan(Vwap, slices);
    } else {
      var iceberg := IcebergSlices(qty, qty * 0.05);
      TwentySlices(iceberg, qty);
      IcebergConserves(iceberg, qty, qty * 0.05);
      plan := Plan(IcebergMulti, iceberg.slices);
    }
  }

  lemma HalfUnits()
    ensures Times(3, HALF_UNIT) <= 0.0000001 && Times(6, HALF_UNIT) <= 0.0000001
    ensures Times(10, HALF_UNIT) <= 0.0000001 && Times(12, HALF_UNIT) <= 0.0000001
    ensures Times(20, HALF_UNIT) <= 0.0000001
  {
    TimesIsProduct(3, HALF_UNIT);
    TimesIsProduct(6, HALF_UNIT);
    TimesIsProduct(10, HALF_UNIT);
    TimesIsProduct(12, HALF_UNIT);
    TimesIsProduct(20, HALF_UNIT);
  }

  lemma TwentySlices(plan: IcebergPlan, qty: real)
    requires qty > 0.0 && IsIceberg(plan, qty, qty * 0.05)
    ensures plan.IcebergPlan? && |plan.slices| == 20
  {
    hide Round8, IcebergQuantities;
    QuotientIs(qty, qty * 0.05, 20.0);
  }
}
