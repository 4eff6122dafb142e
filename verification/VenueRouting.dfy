/** Splitting an order over trading venues by score. */
module VenueRouting {
  import opened RealMath
  import Sorting

  datatype Venue = Venue(name: string, makerFee: real, takerFee: real, liquidityBtc: real, latencyMs: real,
                         reliability: real, isActive: bool)

  datatype Order = Order(quantity: real, atMarket: bool)

  datatype Allocation = Allocation(venue: string, quantity: real)

  // ---------- scores ----------

  function FeeScore(v: Venue, atMarket: bool): real
  {
    Max(0.0, (0.001 - (if atMarket then v.takerFee else v.makerFee)) / 0.001) * 30.0
  }

  function Score(v: Venue, o: Order): real
  {
    FeeScore(v, o.atMarket)
    + Min(1.0, v.liquidityBtc / 100.0) * 30.0
    + Max(0.0, (200.0 - v.latencyMs) / 200.0) * 20.0
    + v.reliability * 20.0
  }

  ghost predicate Sound(v: Venue)
  {
    v.liquidityBtc >= 0.0 && v.reliability >= 0.0
  }

  // A venue of non-negative liquidity and reliability has a non-negative
  // score; with sensible fees, latency and reliability it is at most 100.
  lemma ScoreRange(v: Venue, o: Order)
    requires Sound(v)
    ensures Score(v, o) >= 0.0
    ensures v.makerFee >= 0.0 && v.takerFee >= 0.0 && v.latencyMs >= 0.0 && v.reliability <= 1.0
            ==> Score(v, o) <= 100.0
  {
  }

  // The four parts: a fee of 0.1% or more earns nothing and every hundredth of
  // a percent below it three points; liquidity earns up to 30 points at 100
  // BTC; a latency of 200 ms or more earns nothing and none at all 20 points;
  // reliability earns 20 points in proportion.
  lemma ScoreIs(v: Venue, o: Order)
    ensures var fee := if o.atMarket then v.takerFee else v.makerFee;
      Score(v, o)
      == (if fee < 0.001 then 30.0 - 30000.0 * fee else 0.0)
         + (if v.liquidityBtc < 100.0 then 0.3 * v.liquidityBtc else 30.0)
         + (if v.latencyMs < 200.0 then 20.0 - 0.1 * v.latencyMs else 0.0)
         + 20.0 * v.reliability
  {
  }

  // A venue that is nowhere worse - in the fee that the order pays, in
  // liquidity, latency and reliability - never scores lower; and the other
  // fee has no say.
  lemma BetterScoresHigher(v: Venue, w: Venue, o: Order)
    requires (if o.atMarket then v.takerFee <= w.takerFee else v.makerFee <= w.makerFee)
    requires v.liquidityBtc >= w.liquidityBtc && v.latencyMs <= w.latencyMs && v.reliability >= w.reliability
    ensures Score(v, o) >= Score(w, o)
    ensures v.reliability > w.reliability ==> Score(v, o) > Score(w, o)
  {
  }

  // ---------- the split of a large order ----------

  datatype Scored = Scored(name: string, score: real)

  // The key by which the router sorts: largest score first.
  function Descending(s: Scored): real { -s.score }

  function Scores(venues: seq<Venue>, o: Order): seq<Scored>
  {
    if venues == [] then []
    else
      var v := venues[|venues| - 1];
      Scores(venues[..|venues| - 1], o) + (if v.isActive then [Scored(v.name, Score(v, o))] else [])
  }

  function Ranked(venues: seq<Venue>, o: Order): seq<Scored>
  {
    Sorting.Sort(Scores(venues, o), Descending)
  }

  function ScoreValues(s: seq<Scored>): (xs: seq<real>)
    ensures |xs| == |s| && forall i :: 0 <= i < |s| ==> xs[i] == s[i].score
  {
    seq(|s|, i requires 0 <= i < |s| => s[i].score)
  }

  function TotalScore(s: seq<Scored>): real { Sum(ScoreValues(s)) }

  // What the loop over the ranked venues has allocated, before rounding, and
  // what is left of the order. It stops once nothing is left.
  datatype Split = Split(allocations: seq<Allocation>, remaining: real)

  function SplitTo(ranked: seq<Scored>, quantity: real, total: real, k: nat): Split
    requires total != 0.0 && k <= |ranked|
  {
    if k == 0 then Split([], quantity)
    else
      var before := SplitTo(ranked, quantity, total, k - 1);
      if before.remaining <= 0.0 then before
      else
        var alloc := Min(Share(quantity, ranked[k - 1].score, total), before.remaining);
        if alloc > 0.0
        then Split(before.allocations + [Allocation(ranked[k - 1].name, alloc)], before.remaining - alloc)
        else before
  }

  // The shares of the first k ranked venues, without any minimum taken.
  function PlainShares(ranked: seq<Scored>, quantity: real, total: real, k: nat): seq<Allocation>
    requires total != 0.0 && k <= |ranked|
  {
    if k == 0 then []
    else
      PlainShares(ranked, quantity, total, k - 1)
      + (if ranked[k - 1].score > 0.0
         then [Allocation(ranked[k - 1].name, Share(quantity, ranked[k - 1].score, total))] else [])
  }

  ghost predicate NonNegative(s: seq<Scored>)
  {
    forall i :: 0 <= i < |s| ==> s[i].score >= 0.0
  }

  lemma ShareSign(quantity: real, score: real, total: real)
    requires quantity > 0.0 && total > 0.0
    ensures Share(quantity, score, total) > 0.0 <==> score > 0.0
    ensures Share(quantity, score, total) <= 0.0 <==> score <= 0.0
  {
    var r := score / total;
    assert r * total == score;
    if score > 0.0 {
      assert r > 0.0;
    } else if score == 0.0 {
      QuotientIs(0.0, total, 0.0);
    } else {
      QuotientIs(-score, total, -r);
      assert -r > 0.0;
    }
    SignOfProduct(quantity, r);
  }

  lemma ShareMonotone(quantity: real, x: real, y: real, total: real)
    requires quantity > 0.0 && total > 0.0 && x <= y
    ensures Share(quantity, x, total) <= Share(quantity, y, total)
  {
    DivideMonotone(x, y, total);
    TimesMonotone(x / total, y / total, quantity);
  }

  function Rest(ranked: seq<Scored>, k: nat): real
    requires k <= |ranked|
  {
    TotalScore(ranked[k..])
  }

  lemma RestStep(ranked: seq<Scored>, k: nat)
    requires k < |ranked|
    ensures Rest(ranked, k) == ranked[k].score + Rest(ranked, k + 1)
    ensures NonNegative(ranked) ==> Rest(ranked, k + 1) >= 0.0 && Rest(ranked, k) >= 0.0
  {
    var xs, ys := ScoreValues(ranked[k..]), ScoreValues(ranked[k + 1..]);
    assert xs[1..] == ys;
    SumTail(xs);
    if NonNegative(ranked) {
      SumNonNegative(xs);
      SumNonNegative(ys);
    }
  }

  // At every point of the loop, what remains is the share of the venues not
  // yet visited. The minimum never binds and the loop never stops too early.
  lemma {:induction false} SplitIsPlain(ranked: seq<Scored>, quantity: real, total: real, k: nat)
    requires quantity > 0.0 && total > 0.0 && total == TotalScore(ranked)
    requires NonNegative(ranked) && k <= |ranked|
    ensures var s := SplitTo(ranked, quantity, total, k);
      && s.allocations == PlainShares(ranked, quantity, total, k)
      && s.remaining == Share(quantity, Rest(ranked, k), total)
  {
    hide Share, Rest;
    if k == 0 {
      WholeRest(ranked, quantity, total);
    } else {
      SplitIsPlain(ranked, quantity, total, k - 1);
      SplitStep(ranked, quantity, total, k - 1);
    }
  }

  lemma WholeRest(ranked: seq<Scored>, quantity: real, total: real)
    requires total > 0.0 && total == TotalScore(ranked)
    ensures Share(quantity, Rest(ranked, 0), total) == quantity
  {
    assert ranked[0..] == ranked;
    QuotientIs(total, total, 1.0);
  }

  lemma SplitStep(ranked: seq<Scored>, quantity: real, total: real, k: nat)
    requires quantity > 0.0 && total > 0.0 && NonNegative(ranked) && k < |ranked|
    requires SplitTo(ranked, quantity, total, k).allocations == PlainShares(ranked, quantity, total, k)
    requires SplitTo(ranked, quantity, total, k).remaining == Share(quantity, Rest(ranked, k), total)
    ensures SplitTo(ranked, quantity, total, k + 1).allocations == PlainShares(ranked, quantity, total, k + 1)
    ensures SplitTo(ranked, quantity, total, k + 1).remaining == Share(quantity, Rest(ranked, k + 1), total)
  {
    hide Share, Rest;
    var x, rest := ranked[k].score, Rest(ranked, k + 1);
    RestStep(ranked, k);
    ShareSplits(quantity, x, rest, total);
    ShareSign(quantity, x, total);
    ShareSign(quantity, rest, total);
    ShareSign(quantity, x + rest, total);
    var shares := PlainShares(ranked, quantity, total, k);
    assert shares + [] == shares;
  }

  // ---------- what the split promises ----------

  function Amounts(allocations: seq<Allocation>): (xs: seq<real>)
    ensures |xs| == |allocations| && forall i :: 0 <= i < |allocations| ==> xs[i] == allocations[i].quantity
  {
    seq(|allocations|, i requires 0 <= i < |allocations| => allocations[i].quantity)
  }

  // The parts of the venues up to k and the rest make up the order.
  lemma {:induction false} SharesAndRest(ranked: seq<Scored>, quantity: real, total: real, k: nat)
    requires quantity > 0.0 && total > 0.0 && total == TotalScore(ranked)
    requires NonNegative(ranked) && k <= |ranked|
    ensures Sum(Amounts(PlainShares(ranked, quantity, total, k))) + Share(quantity, Rest(ranked, k), total)
         == quantity
  {
    hide Share, Rest, Sum;
    if k == 0 {
      WholeRest(ranked, quantity, total);
      assert PlainShares(ranked, quantity, total, 0) == [];
      assert Amounts([]) == [];
      SumEmpty();
    } else {
      SharesAndRest(ranked, quantity, total, k - 1);
      var x := ranked[k - 1].score;
      RestStep(ranked, k - 1);
      ShareSplits(quantity, x, Rest(ranked, k), total);
      MoreShares(ranked, quantity, total, k - 1);
    }
  }

  lemma SumEmpty()
    ensures Sum([]) == 0.0
  {
  }

  lemma MoreShares(ranked: seq<Scored>, quantity: real, total: real, k: nat)
    requires quantity > 0.0 && total > 0.0 && NonNegative(ranked) && k < |ranked|
    ensures Sum(Amounts(PlainShares(ranked, quantity, total, k + 1)))
         == Sum(Amounts(PlainShares(ranked, quantity, total, k))) + Share(quantity, ranked[k].score, total)
  {
    hide Share;
    var shares := PlainShares(ranked, quantity, total, k);
    var part := Share(quantity, ranked[k].score, total);
    if ranked[k].score > 0.0 {
      assert Amounts(shares + [Allocation(ranked[k].name, part)]) == Amounts(shares) + [part];
      SumAppend(Amounts(shares), part);
    } else {
      ShareOfNothing(quantity, total);
      assert shares + [] == shares;
    }
  }

  lemma RestIsNothing(ranked: seq<Scored>)
    ensures Rest(ranked, |ranked|) == 0.0
  {
    assert ScoreValues(ranked[|ranked|..]) == [];
  }

  ghost predicate DistinctNames(s: seq<Scored>)
  {
    forall i, j :: 0 <= i < j < |s| ==> s[i].name != s[j].name
  }

  // In a ranking, the venues that get a share are the first ones, in order.
  ghost predicate PrefixShares(ranked: seq<Scored>, quantity: real, total: real, k: nat, s: seq<Allocation>)
    requires total != 0.0 && k <= |ranked|
  {
    && |s| <= k
    && (forall i :: 0 <= i < |s| ==>
          ranked[i].score > 0.0
          && s[i] == Allocation(ranked[i].name, Share(quantity, ranked[i].score, total)))
    && (|s| < k ==> ranked[k - 1].score <= 0.0)
  }

  lemma {:induction false} SharesArePrefix(ranked: seq<Scored>, quantity: real, total: real, k: nat)
    requires total != 0.0 && k <= |ranked| && Sorting.SortedBy(ranked, Descending)
    ensures PrefixShares(ranked, quantity, total, k, PlainShares(ranked, quantity, total, k))
  {
    hide Share;
    if k > 0 {
      SharesArePrefix(ranked, quantity, total, k - 1);
      if k > 1 { assert Descending(ranked[k - 2]) <= Descending(ranked[k - 1]); }
    }
  }

  lemma PrefixOrdered(ranked: seq<Scored>, quantity: real, total: real, k: nat, s: seq<Allocation>)
    requires quantity > 0.0 && total > 0.0 && k <= |ranked|
    requires Sorting.SortedBy(ranked, Descending) && DistinctNames(ranked)
    requires PrefixShares(ranked, quantity, total, k, s)
    ensures forall i :: 0 < i < |s| ==> s[i].quantity <= s[i - 1].quantity
    ensures forall i, j :: 0 <= i < j < |s| ==> s[i].venue != s[j].venue
  {
    hide Share;
    forall i | 0 < i < |s| ensures s[i].quantity <= s[i - 1].quantity {
      assert Descending(ranked[i - 1]) <= Descending(ranked[i]);
      ShareMonotone(quantity, ranked[i].score, ranked[i - 1].score, total);
    }
  }

  // The split of a large order, before rounding: it adds up to the quantity
  // and leaves nothing, the shares do not grow along the ranking, and no venue
  // appears twice.
  lemma SplitConserves(ranked: seq<Scored>, quantity: real)
    requires quantity > 0.0 && TotalScore(ranked) > 0.0 && NonNegative(ranked)
    requires Sorting.SortedBy(ranked, Descending) && DistinctNames(ranked)
    ensures var s := SplitTo(ranked, quantity, TotalScore(ranked), |ranked|);
      && s.remaining == 0.0
      && Sum(Amounts(s.allocations)) == quantity
      && (forall i :: 0 < i < |s.allocations| ==> s.allocations[i].quantity <= s.allocations[i - 1].quantity)
      && (forall i, j :: 0 <= i < j < |s.allocations| ==> s.allocations[i].venue != s.allocations[j].venue)
      && |s.allocations| <= |ranked|
      && (forall i :: 0 <= i < |s.allocations| ==> s.allocations[i].venue == ranked[i].name)
  {
    hide Share, Rest;
    var total, n := TotalScore(ranked), |ranked|;
    SplitIsPlain(ranked, quantity, total, n);
    SharesAndRest(ranked, quantity, total, n);
    RestIsNothing(ranked);
    ShareOfNothing(quantity, total);
    SharesArePrefix(ranked, quantity, total, n);
    PrefixOrdered(ranked, quantity, total, n, PlainShares(ranked, quantity, total, n));
  }

  // Of the quantity each venue gets what its score is of the total score; the
  // venues without an allocation are those of score 0.
  lemma SplitInProportion(ranked: seq<Scored>, quantity: real, total: real, i: nat)
    requires quantity > 0.0 && total > 0.0 && total == TotalScore(ranked) && NonNegative(ranked)
    requires Sorting.SortedBy(ranked, Descending) && i < |ranked|
    ensures var s := SplitTo(ranked, quantity, total, |ranked|);
      if i < |s.allocations| then s.allocations[i].quantity * total == quantity * ranked[i].score
      else ranked[i].score == 0.0
  {
    hide Share, Rest, TotalScore, SplitTo, PlainShares;
    var n := |ranked|;
    SplitIsPlain(ranked, quantity, total, n);
    SharesArePrefix(ranked, quantity, total, n);
    ShareIs(quantity, ranked[i].score, total);
    if |PlainShares(ranked, quantity, total, n)| <= i { NoneBehind(ranked, quantity, total, n, i); }
  }

  lemma {:induction false} NoneBehind(ranked: seq<Scored>, quantity: real, total: real, n: nat, i: nat)
    requires total > 0.0 && NonNegative(ranked) && n <= |ranked|
    requires |PlainShares(ranked, quantity, total, n)| <= i < n && Sorting.SortedBy(ranked, Descending)
    ensures ranked[i].score == 0.0
  {
    hide Share;
    if i < n - 1 {
      NoneBehind(ranked, quantity, total, n - 1, i);
    } else {
      SharesArePrefix(ranked, quantity, total, n);
    }
  }

  // ---------- rounding ----------

  function Rounded(allocations: seq<Allocation>): (r: seq<Allocation>)
    ensures |r| == |allocations|
    ensures forall i :: 0 <= i < |r| ==>
      r[i] == Allocation(allocations[i].venue, Round8(allocations[i].quantity))
  {
    seq(|allocations|, i requires 0 <= i < |allocations| =>
      Allocation(allocations[i].venue, Round8(allocations[i].quantity)))
  }

  lemma NearestMonotone(x: real, y: real)
    requires x <= y
    ensures Nearest(x) <= Nearest(y)
  {
  }

  lemma Round8Monotone(x: real, y: real)
    requires x <= y
    ensures Round8(x) <= Round8(y)
  {
    NearestMonotone(x * 100000000.0, y * 100000000.0);
  }

  lemma RoundedClose(allocations: seq<Allocation>)
    ensures var r := Rounded(allocations);
      Abs(Sum(Amounts(r)) - Sum(Amounts(allocations))) <= Times(|r|, HALF_UNIT)
  {
    hide Round8, Times;
    var r := Rounded(allocations);
    forall i | 0 <= i < |r| ensures Abs(Amounts(r)[i] - Amounts(allocations)[i]) <= HALF_UNIT {
      Round8Error(allocations[i].quantity);
    }
    SumClose(Amounts(r), Amounts(allocations), HALF_UNIT);
  }

  // After rounding: still in order, and off by at most half a unit per venue.
  lemma RoundedConserves(allocations: seq<Allocation>, quantity: real)
    requires Sum(Amounts(allocations)) == quantity
    requires forall i :: 0 < i < |allocations| ==> allocations[i].quantity <= allocations[i - 1].quantity
    ensures var r := Rounded(allocations);
      && Abs(Sum(Amounts(r)) - quantity) <= Times(|r|, HALF_UNIT)
      && (forall i :: 0 < i < |r| ==> r[i].quantity <= r[i - 1].quantity)
  {
    hide Round8, Times;
    var r := Rounded(allocations);
    RoundedClose(allocations);
    forall i | 0 < i < |r| ensures r[i].quantity <= r[i - 1].quantity {
      Round8Monotone(allocations[i].quantity, allocations[i - 1].quantity);
    }
  }

  // ---------- the route of an order ----------

  // The first one of the largest score.
  function Best(s: seq<Scored>): Scored
    requires s != []
  {
    if |s| == 1 then s[0]
    else
      var b := Best(s[..|s| - 1]);
      if s[|s| - 1].score > b.score then s[|s| - 1] else b
  }

  lemma {:induction false} BestIsFirstMaximum(s: seq<Scored>) returns (k: nat)
    requires s != []
    ensures k < |s| && s[k] == Best(s)
    ensures forall i :: 0 <= i < |s| ==> s[i].score <= Best(s).score
    ensures forall i :: 0 <= i < k ==> s[i].score < Best(s).score
  {
    if |s| == 1 {
      k := 0;
    } else {
      k := BestIsFirstMaximum(s[..|s| - 1]);
      if s[|s| - 1].score > s[k].score { k := |s| - 1; }
    }
  }

  // What is left after the loop goes to the first allocation.
  function WithRest(allocations: seq<Allocation>, remaining: real): seq<Allocation>
  {
    if remaining > 0.0 && allocations != []
    then allocations[0 := Allocation(allocations[0].venue, Round8(allocations[0].quantity + remaining))]
    else allocations
  }

  function RouteOf(venues: seq<Venue>, o: Order): seq<Allocation>
  {
    var scores, ranked := Scores(venues, o), Ranked(venues, o);
    if scores == [] then [Allocation("binance", o.quantity)]
    else if o.quantity < 0.1 then [Allocation(Best(scores).name, o.quantity)]
    else if TotalScore(ranked) <= 0.0 then [Allocation("binance", o.quantity)]
    else
      var s := SplitTo(ranked, o.quantity, TotalScore(ranked), |ranked|);
      WithRest(Rounded(s.allocations), s.remaining)
  }

  // ---------- distinct names survive the ranking ----------

  function Named(s: seq<Scored>, c: string): seq<Scored>
  {
    Sorting.Filter(s, (x: Scored) => x.name == c)
  }

  lemma {:induction false} NamedTwice(s: seq<Scored>, i: nat, j: nat)
    requires i < j < |s| && s[i].name == s[j].name
    ensures |Named(s, s[i].name)| >= 2
  {
    var c, init := s[i].name, s[..|s| - 1];
    assert Named(s, c) == Named(init, c) + (if s[|s| - 1].name == c then [s[|s| - 1]] else []);
    if j < |s| - 1 {
      NamedTwice(init, i, j);
    } else {
      Sorting.FilterIn(init, (x: Scored) => x.name == c);
      assert init[i] in Named(init, c);
    }
  }

  lemma {:induction false} NamedOnce(s: seq<Scored>, c: string)
    requires DistinctNames(s)
    ensures |Named(s, c)| <= 1
  {
    if s != [] {
      var init := s[..|s| - 1];
      NamedOnce(init, c);
      assert Named(s, c) == Named(init, c) + (if s[|s| - 1].name == c then [s[|s| - 1]] else []);
      Sorting.FilterIn(init, (x: Scored) => x.name == c);
      if Named(init, c) != [] {
        assert Named(init, c)[0] in init;
      }
    }
  }

  lemma RankingDistinct(s: seq<Scored>)
    requires DistinctNames(s)
    ensures DistinctNames(Sorting.Sort(s, Descending))
  {
    var r := Sorting.Sort(s, Descending);
    forall i, j | 0 <= i < j < |r| ensures r[i].name != r[j].name {
      if r[i].name == r[j].name {
        var c := r[i].name;
        NamedTwice(r, i, j);
        Sorting.SortCommutesWithFilter(s, Descending, (x: Scored) => x.name == c);
        Sorting.SortLength(Named(s, c), Descending);
        NamedOnce(s, c);
        assert false;
      }
    }
  }

  lemma RankingIn(s: seq<Scored>, x: Scored)
    ensures x in Sorting.Sort(s, Descending) <==> x in s
  {
    Sorting.SortSorts(s, Descending);
    assert x in multiset(Sorting.Sort(s, Descending)) <==> x in multiset(s);
  }

  ghost predicate DistinctVenues(venues: seq<Venue>)
  {
    forall i, j :: 0 <= i < j < |venues| ==> venues[i].name != venues[j].name
  }

  // The venues that take part: active, each once, with the score it has.
  lemma {:induction false} ScoresOf(venues: seq<Venue>, o: Order)
    requires DistinctVenues(venues)
    ensures var s := Scores(venues, o);
      && DistinctNames(s)
      && (forall x :: x in s <==> exists v :: v in venues && v.isActive && x == Scored(v.name, Score(v, o)))
  {
    hide Score;
    if venues != [] {
      var init, v := venues[..|venues| - 1], venues[|venues| - 1];
      ScoresOf(init, o);
      assert venues == init + [v];
      var s := Scores(init, o);
      forall i | 0 <= i < |s| ensures s[i].name != v.name {
        assert s[i] in s;
        var u :| u in init && u.isActive && s[i] == Scored(u.name, Score(u, o));
        var k :| 0 <= k < |init| && init[k] == u;
        assert venues[k] == u;
      }
    }
  }

  ghost predicate IsActive(venues: seq<Venue>, name: string)
  {
    exists v :: v in venues && v.isActive && v.name == name
  }

  lemma ScoredIsActive(venues: seq<Venue>, o: Order, x: Scored)
    requires DistinctVenues(venues) && x in Scores(venues, o)
    ensures IsActive(venues, x.name)
  {
    hide Score, Scores;
    ScoresOf(venues, o);
  }

  // Every order of a positive quantity is routed as a whole: the allocations
  // add up to it within half a unit each, no venue appears twice, and every
  // one is an active venue unless the fallback takes all.
  lemma RouteConserves(venues: seq<Venue>, o: Order)
    requires DistinctVenues(venues) && forall v :: v in venues ==> Sound(v)
    requires o.quantity > 0.0
    ensures var r := RouteOf(venues, o);
      && r != []
      && Abs(Sum(Amounts(r)) - o.quantity) <= Times(|r|, HALF_UNIT)
      && (forall i, j :: 0 <= i < j < |r| ==> r[i].venue != r[j].venue)
      && (forall i :: 0 < i < |r| ==> r[i].quantity <= r[i - 1].quantity)
      && (r == [Allocation("binance", o.quantity)] || forall i :: 0 <= i < |r| ==> IsActive(venues, r[i].venue))
  {
    hide Score, Round8, Share, Best, SplitTo, TotalScore, Amounts, Times, Sum, WithRest;
    var scores, ranked := Scores(venues, o), Ranked(venues, o);
    if scores == [] || o.quantity < 0.1 || TotalScore(ranked) <= 0.0 {
      WholeOrder(RouteOf(venues, o)[0].venue, o.quantity);
      if scores != [] {
        var k := BestIsFirstMaximum(scores);
        ScoredIsActive(venues, o, scores[k]);
      }
    } else {
      RankedSound(venues, o);
      LargeOrder(ranked, o.quantity);
      forall i | 0 <= i < |ranked| ensures IsActive(venues, ranked[i].name) {
        RankingIn(scores, ranked[i]);
        ScoredIsActive(venues, o, ranked[i]);
      }
    }
  }

  // The ranking of sound venues: in order, each name once, no negative score.
  lemma RankedSound(venues: seq<Venue>, o: Order)
    requires DistinctVenues(venues) && forall v :: v in venues ==> Sound(v)
    ensures var ranked := Ranked(venues, o);
      Sorting.SortedBy(ranked, Descending) && DistinctNames(ranked) && NonNegative(ranked)
  {
    hide Score;
    var scores, ranked := Scores(venues, o), Ranked(venues, o);
    ScoresOf(venues, o);
    Sorting.SortSorts(scores, Descending);
    RankingDistinct(scores);
    forall i | 0 <= i < |ranked| ensures ranked[i].score >= 0.0 {
      RankingIn(scores, ranked[i]);
      var v :| v in venues && v.isActive && ranked[i] == Scored(v.name, Score(v, o));
      ScoreRange(v, o);
    }
  }

  lemma WholeOrder(venue: string, quantity: real)
    ensures Sum(Amounts([Allocation(venue, quantity)])) == quantity
    ensures Times(1, HALF_UNIT) >= 0.0 && Times(2, HALF_UNIT) >= 0.0
  {
    assert Amounts([Allocation(venue, quantity)]) == [quantity];
    assert [quantity][..0] == [];
    TimesMore(0, HALF_UNIT);
    TimesMore(1, HALF_UNIT);
  }

  lemma NothingAllocated()
    ensures Sum(Amounts([])) == 0.0
  {
    assert Amounts([]) == [];
  }

  lemma LargeOrder(ranked: seq<Scored>, quantity: real)
    requires quantity > 0.0 && TotalScore(ranked) > 0.0 && NonNegative(ranked)
    requires Sorting.SortedBy(ranked, Descending) && DistinctNames(ranked)
    ensures var s := SplitTo(ranked, quantity, TotalScore(ranked), |ranked|);
      var r := WithRest(Rounded(s.allocations), s.remaining);
      && r != []
      && Abs(Sum(Amounts(r)) - quantity) <= Times(|r|, HALF_UNIT)
      && (forall i, j :: 0 <= i < j < |r| ==> r[i].venue != r[j].venue)
      && (forall i :: 0 < i < |r| ==> r[i].quantity <= r[i - 1].quantity)
      && |r| <= |ranked| && (forall i :: 0 <= i < |r| ==> r[i].venue == ranked[i].name)
  {
    hide Round8, Share, Times, SplitTo, Amounts, Sum, TotalScore;
    SplitConserves(ranked, quantity);
    var s := SplitTo(ranked, quantity, TotalScore(ranked), |ranked|);
    NothingAllocated();
    RoundedConserves(s.allocations, quantity);
  }

  lemma BestOfMore(s: seq<Scored>, x: Scored)
    ensures Best(s + [x]) == if s == [] || x.score > Best(s).score then x else Best(s)
  {
    assert (s + [x])[..|s|] == s;
  }

  // Venue k is the first active one of the highest score.
  ghost predicate IsBest(venues: seq<Venue>, o: Order, k: nat)
  {
    && k < |venues| && venues[k].isActive
    && (forall i :: 0 <= i < |venues| && venues[i].isActive ==> Score(venues[i], o) <= Score(venues[k], o))
    && (forall i :: 0 <= i < k && venues[i].isActive ==> Score(venues[i], o) < Score(venues[k], o))
  }

  lemma {:induction false} BestVenue(venues: seq<Venue>, o: Order) returns (k: nat)
    requires Scores(venues, o) != []
    ensures IsBest(venues, o, k)
    ensures Best(Scores(venues, o)) == Scored(venues[k].name, Score(venues[k], o))
  {
    hide Score, Best;
    var n := |venues| - 1;
    var init, v := venues[..n], venues[n];
    var scores, x := Scores(init, o), Scored(v.name, Score(v, o));
    BestOfMore(scores, x);
    assert scores + [] == scores;
    if scores == [] {
      NoneActive(init, o);
      k := n;
    } else {
      var j := BestVenue(init, o);
      k := if v.isActive && x.score > Score(venues[j], o) then n else j;
    }
  }

  lemma {:induction false} NoneActive(venues: seq<Venue>, o: Order)
    requires Scores(venues, o) == []
    ensures forall i :: 0 <= i < |venues| ==> !venues[i].isActive
  {
    hide Score;
    if venues != [] { NoneActive(venues[..|venues| - 1], o); }
  }

  lemma {:induction false} NothingScored(venues: seq<Venue>, o: Order)
    requires forall v :: v in venues && v.isActive ==> Score(v, o) <= 0.0
    ensures forall i :: 0 <= i < |Scores(venues, o)| ==> Scores(venues, o)[i].score <= 0.0
  {
    hide Score;
    if venues != [] {
      var init := venues[..|venues| - 1];
      assert venues == init + [venues[|venues| - 1]];
      NothingScored(init, o);
    }
  }

  // The three routes that do not split: the fallback without an active venue,
  // the best venue for an order below 0.1, and the fallback for a larger one
  // if no active venue has a score above 0.
  lemma WholeRoute(venues: seq<Venue>, o: Order)
    ensures (forall v :: v in venues ==> !v.isActive) ==> RouteOf(venues, o) == [Allocation("binance", o.quantity)]
    ensures o.quantity < 0.1 && (exists v :: v in venues && v.isActive) ==>
      exists k: nat :: IsBest(venues, o, k) && RouteOf(venues, o) == [Allocation(venues[k].name, o.quantity)]
    ensures 0.1 <= o.quantity && (forall v :: v in venues && v.isActive ==> Score(v, o) <= 0.0) ==>
      RouteOf(venues, o) == [Allocation("binance", o.quantity)]
  {
    hide Score, Scores, SplitTo, WithRest, TotalScore;
    if forall v :: v in venues && v.isActive ==> Score(v, o) <= 0.0 {
      NothingScored(venues, o);
      var ranked := Ranked(venues, o);
      forall i | 0 <= i < |ranked| ensures ranked[i].score <= 0.0 { RankingIn(Scores(venues, o), ranked[i]); }
      TotalNeedsScore(ranked);
    }
    if Scores(venues, o) == [] {
      NoneActive(venues, o);
    } else {
      var k := BestVenue(venues, o);
      assert venues[k] in venues;
    }
  }

  // ---------- any venues at all ----------

  // The loop allocates the order but for what remains, which is never
  // negative; and it allocates something if the first score is positive.
  lemma {:induction false} SplitSums(ranked: seq<Scored>, quantity: real, total: real, k: nat)
    requires quantity > 0.0 && total > 0.0 && k <= |ranked|
    ensures var s := SplitTo(ranked, quantity, total, k);
      && Sum(Amounts(s.allocations)) + s.remaining == quantity && s.remaining >= 0.0
      && (k > 0 && ranked[0].score > 0.0 ==> s.allocations != [])
  {
    hide Share, Sum;
    if k == 0 {
      NothingAllocated();
    } else {
      SplitSums(ranked, quantity, total, k - 1);
      var before := SplitTo(ranked, quantity, total, k - 1);
      ShareSign(quantity, ranked[k - 1].score, total);
      var alloc := Min(Share(quantity, ranked[k - 1].score, total), before.remaining);
      var more := Allocation(ranked[k - 1].name, alloc);
      assert Amounts(before.allocations + [more]) == Amounts(before.allocations) + [alloc];
      SumAppend(Amounts(before.allocations), alloc);
    }
  }

  lemma {:induction false} TotalNeedsScore(s: seq<Scored>)
    requires forall i :: 0 <= i < |s| ==> s[i].score <= 0.0
    ensures TotalScore(s) <= 0.0
  {
    if s != [] {
      var init := s[..|s| - 1];
      TotalNeedsScore(init);
      assert ScoreValues(s)[..|s| - 1] == ScoreValues(init);
    }
  }

  lemma TopScore(ranked: seq<Scored>)
    requires Sorting.SortedBy(ranked, Descending) && TotalScore(ranked) > 0.0
    ensures ranked != [] && ranked[0].score > 0.0
  {
    if ranked == [] || ranked[0].score <= 0.0 {
      forall i | 0 <= i < |ranked| ensures ranked[i].score <= 0.0 {
        assert i == 0 || Descending(ranked[0]) <= Descending(ranked[i]);
      }
      TotalNeedsScore(ranked);
    }
  }

  // What is left is added to the first allocation, and only there.
  lemma RestGoesFirst(allocations: seq<Allocation>, remaining: real)
    requires allocations != [] && remaining >= 0.0
    ensures var r := WithRest(allocations, remaining);
      && |r| == |allocations| && r[1..] == allocations[1..] && r[0].venue == allocations[0].venue
      && Abs(Sum(Amounts(r)) - (Sum(Amounts(allocations)) + remaining)) <= HALF_UNIT
  {
    hide Round8;
    var r := WithRest(allocations, remaining);
    var xs, ys := Amounts(allocations), Amounts(r);
    assert xs[1..] == ys[1..];
    SumTail(xs);
    SumTail(ys);
    Round8Error(allocations[0].quantity + remaining);
  }

  // Whatever the scores are, negative ones included, every order of a
  // positive quantity is routed as a whole, up to half a unit for each
  // allocation and one more.
  lemma AnyRouteConserves(venues: seq<Venue>, o: Order)
    requires o.quantity > 0.0
    ensures var r := RouteOf(venues, o);
      r != [] && Abs(Sum(Amounts(r)) - o.quantity) <= Times(|r| + 1, HALF_UNIT)
  {
    hide Score, Scores, Round8, Share, Best, SplitTo, TotalScore, Amounts, Times, Sum, WithRest, Rounded;
    var scores, ranked := Scores(venues, o), Ranked(venues, o);
    if scores == [] || o.quantity < 0.1 || TotalScore(ranked) <= 0.0 {
      WholeOrder(RouteOf(venues, o)[0].venue, o.quantity);
    } else {
      Sorting.SortSorts(scores, Descending);
      AnyLargeOrder(ranked, o.quantity);
    }
  }

  lemma AnyLargeOrder(ranked: seq<Scored>, quantity: real)
    requires quantity > 0.0 && TotalScore(ranked) > 0.0 && Sorting.SortedBy(ranked, Descending)
    ensures var s := SplitTo(ranked, quantity, TotalScore(ranked), |ranked|);
      var r := WithRest(Rounded(s.allocations), s.remaining);
      r != [] && Abs(Sum(Amounts(r)) - quantity) <= Times(|r| + 1, HALF_UNIT)
  {
    hide SplitTo, TotalScore, Amounts, Times, Sum, WithRest;
    TopScore(ranked);
    SplitSums(ranked, quantity, TotalScore(ranked), |ranked|);
    var s := SplitTo(ranked, quantity, TotalScore(ranked), |ranked|);
    RoundedClose(s.allocations);
    RestGoesFirst(Rounded(s.allocations), s.remaining);
    TimesMore(|s.allocations|, HALF_UNIT);
    Nearby(Sum(Amounts(WithRest(Rounded(s.allocations), s.remaining))), Sum(Amounts(Rounded(s.allocations))),
           Sum(Amounts(s.allocations)), s.remaining, quantity, Times(|s.allocations|, HALF_UNIT));
  }

  lemma Nearby(r: real, rounded: real, exact: real, remaining: real, quantity: real, e: real)
    requires Abs(r - (rounded + remaining)) <= HALF_UNIT && Abs(rounded - exact) <= e
    requires exact + remaining == quantity
    ensures Abs(r - quantity) <= e + HALF_UNIT
  {
  }

  lemma TimesMore(n: nat, e: real)
    ensures Times(n + 1, e) == Times(n, e) + e
  {
  }

  // ---------- the router ----------

  class SmartOrderRouter {
    var venues: seq<Venue>

    constructor ()
      ensures venues == [
        Venue("binance", 0.0002, 0.0004, 100.0, 50.0, 0.99, true),
        Venue("bybit", 0.0002, 0.0005, 80.0, 60.0, 0.98, true),
        Venue("hyperliquid", 0.0003, 0.0005, 60.0, 30.0, 0.95, true)]
    {
      venues := [
        Venue("binance", 0.0002, 0.0004, 100.0, 50.0, 0.99, true),
        Venue("bybit", 0.0002, 0.0005, 80.0, 60.0, 0.98, true),
        Venue("hyperliquid", 0.0003, 0.0005, 60.0, 30.0, 0.95, true)];
    }

    // A known name keeps its place; a new one goes to the end.
    method AddVenue(venue: Venue)
      requires DistinctVenues(venues)
      modifies this
      ensures DistinctVenues(venues) && venue in venues
      ensures forall v :: v in old(venues) && v.name != venue.name ==> v in venues
      ensures forall v :: v in venues ==> v == venue || v in old(venues)
      ensures forall i :: 0 <= i < |old(venues)| && old(venues)[i].name == venue.name ==>
        venues == old(venues)[i := venue]
      ensures (forall i :: 0 <= i < |old(venues)| ==> old(venues)[i].name != venue.name) ==>
        venues == old(venues) + [venue]
    {
      var i := 0;
      while i < |venues|
        invariant 0 <= i <= |venues| && venues == old(venues)
        invariant forall k :: 0 <= k < i ==> venues[k].name != venue.name
      {
        if venues[i].name == venue.name {
          venues := venues[i := venue];
          assert venues[i] == venue;
          assert forall k :: 0 <= k < |venues| && k != i ==> venues[k] == old(venues)[k];
          return;
        }
        i := i + 1;
      }
      venues := venues + [venue];
    }

    method ScoreVenue(venue: Venue, order: Order) returns (score: real)
      ensures score == Score(venue, order)
    {
      score := 0.0;
      var takerFee := if order.atMarket then venue.takerFee else venue.makerFee;
      var feeScore := Max(0.0, (0.001 - takerFee) / 0.001) * 30.0;
      score := score + feeScore;
      var liqScore := Min(1.0, venue.liquidityBtc / 100.0) * 30.0;
      score := score + liqScore;
      var latScore := Max(0.0, (200.0 - venue.latencyMs) / 200.0) * 20.0;
      score := score + latScore;
      score := score + venue.reliability * 20.0;
    }

    method Route(order: Order) returns (allocations: seq<Allocation>)
      ensures allocations == RouteOf(venues, order)
    {
      hide Score, Round8, Share;
      var scores := ScoreActive(order);
      if scores == [] {
        return [Allocation("binance", order.quantity)];
      }
      if order.quantity < 0.1 {
        return [Allocation(Best(scores).name, order.quantity)];
      }
      var scored := Sorting.Sort(scores, Descending);
      var totalScore := TotalScore(scored);
      if totalScore <= 0.0 {
        return [Allocation("binance", order.quantity)];
      }
      var remaining;
      allocations, remaining := Allocate(scored, order.quantity, totalScore);
      if remaining > 0.0 && allocations != [] {
        allocations := allocations[0 := allocations[0].(quantity := allocations[0].quantity + remaining)];
        allocations := allocations[0 := allocations[0].(quantity := Round8(allocations[0].quantity))];
      }
    }

    method ScoreActive(order: Order) returns (scores: seq<Scored>)
      ensures scores == Scores(venues, order)
    {
      hide Score;
      scores := [];
      for i := 0 to |venues|
        invariant scores == Scores(venues[..i], order)
      {
        assert venues[..i + 1][..i] == venues[..i];
        if venues[i].isActive {
          var score := ScoreVenue(venues[i], order);
          scores := scores + [Scored(venues[i].name, score)];
        }
      }
      assert venues[..|venues|] == venues;
    }

    method Allocate(scored: seq<Scored>, quantity: real, totalScore: real)
      returns (allocations: seq<Allocation>, remaining: real)
      requires totalScore > 0.0 && quantity > 0.0
      ensures var s := SplitTo(scored, quantity, totalScore, |scored|);
        allocations == Rounded(s.allocations) && remaining == s.remaining
    {
      hide Round8, Share;
      allocations, remaining := [], quantity;
      var i := 0;
      ghost var exact: seq<Allocation> := [];
      while i < |scored|
        invariant 0 <= i <= |scored|
        invariant Split(exact, remaining) == SplitTo(scored, quantity, totalScore, i)
        invariant allocations == Rounded(exact)
        invariant remaining > 0.0
      {
        var alloc := Min(Share(quantity, scored[i].score, totalScore), remaining);
        if alloc > 0.0 {
          ghost var more := Allocation(scored[i].name, alloc);
          allocations := allocations + [Allocation(scored[i].name, Round8(alloc))];
          assert allocations == Rounded(exact + [more]);
          exact := exact + [more];
          remaining := remaining - alloc;
        }
        i := i + 1;
        if remaining <= 0.0 {
          StopsHere(scored, quantity, totalScore, i, |scored|);
          return;
        }
      }
    }
  }

  lemma {:induction false} StopsHere(ranked: seq<Scored>, quantity: real, total: real, k: nat, n: nat)
    requires total != 0.0 && k <= n <= |ranked|
    requires SplitTo(ranked, quantity, total, k).remaining <= 0.0
    ensures SplitTo(ranked, quantity, total, n) == SplitTo(ranked, quantity, total, k)
  {
    if k < n { StopsHere(ranked, quantity, total, k, n - 1); }
  }
}
