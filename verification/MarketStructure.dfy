/** Swing points of a price series, and breaks of structure (BOS) and changes
    of character (CHOCH) against them. The detector keeps only the last three
    swings of each kind; the definition looks at all of them. */
module MarketStructure {
  import opened Options
  import opened RealMath

  // ---------- swing points ----------

  // The bar is the highest of the 2 * window + 1 bars around it.
  ghost predicate SwingHigh(high: seq<real>, window: nat, i: nat)
  {
    window <= i < |high| - window && forall j :: i - window <= j <= i + window ==> high[j] <= high[i]
  }

  ghost predicate SwingLow(low: seq<real>, window: nat, i: nat)
  {
    window <= i < |low| - window && forall j :: i - window <= j <= i + window ==> low[j] >= low[i]
  }

  // A row of the swing table; a bar that is no swing has no price.
  datatype Row = Row(high: bool, low: bool, highPrice: Option<real>, lowPrice: Option<real>)

  ghost function RowOf(high: seq<real>, low: seq<real>, window: nat, i: nat): Row
    requires i < |high| == |low|
  {
    Row(SwingHigh(high, window, i), SwingLow(low, window, i),
        if SwingHigh(high, window, i) then Some(high[i]) else None,
        if SwingLow(low, window, i) then Some(low[i]) else None)
  }

  method DetectSwingPoints(high: seq<real>, low: seq<real>, window: nat) returns (rows: array<Row>)
    requires |high| == |low|
    ensures fresh(rows) && rows.Length == |high|
    ensures forall i :: 0 <= i < |high| ==> rows[i] == RowOf(high, low, window, i)
    ensures forall i :: 0 <= i < |high| ==>
      && (rows[i].high <==> SwingHigh(high, window, i)) && (rows[i].low <==> SwingLow(low, window, i))
      && rows[i].highPrice == (if rows[i].high then Some(high[i]) else None)
      && rows[i].lowPrice == (if rows[i].low then Some(low[i]) else None)
  {
    var n := |high|;
    rows := new Row[n];
    for k := 0 to n
      invariant forall j :: 0 <= j < k ==> rows[j] == Row(false, false, None, None)
    {
      rows[k] := Row(false, false, None, None);
    }
    var i := window;
    while i < n - window
      invariant window <= i
      invariant forall k :: 0 <= k < n ==>
        rows[k] == if k < i then RowOf(high, low, window, k) else Row(false, false, None, None)
    {
      AroundIsMax(high, window, i);
      AroundIsMin(low, window, i);
      if high[i] == MaxOf(high[i - window..i + window + 1]) {
        rows[i] := rows[i].(high := true, highPrice := Some(high[i]));
      }
      if low[i] == MinOf(low[i - window..i + window + 1]) {
        rows[i] := rows[i].(low := true, lowPrice := Some(low[i]));
      }
      i := i + 1;
    }
  }

  lemma AroundIsMax(s: seq<real>, window: nat, i: nat)
    requires window <= i < |s| - window
    ensures s[i] == MaxOf(s[i - window..i + window + 1]) <==> SwingHigh(s, window, i)
  {
    var around := s[i - window..i + window + 1];
    assert around[window] == s[i];
    assert forall j :: i - window <= j <= i + window ==> s[j] == around[j - (i - window)];
  }

  lemma AroundIsMin(s: seq<real>, window: nat, i: nat)
    requires window <= i < |s| - window
    ensures s[i] == MinOf(s[i - window..i + window + 1]) <==> SwingLow(s, window, i)
  {
    var around := s[i - window..i + window + 1];
    assert around[window] == s[i];
    assert forall j :: i - window <= j <= i + window ==> s[j] == around[j - (i - window)];
  }

  // ---------- breaks, by definition over all swings ----------

  datatype Swing = Swing(index: nat, price: real)

  function PriceOf(row: Row, high: bool): Option<real>
  {
    if high then (if row.high then row.highPrice else None) else (if row.low then row.lowPrice else None)
  }

  // The swing highs, or lows, at rows first .. end - 1, oldest first: the rows
  // that are flagged and have a price.
  function History(rows: seq<Row>, high: bool, first: nat, end: nat): seq<Swing>
    requires end <= |rows|
  {
    if end <= first then [] else History(rows, high, first, end - 1) + At(rows, high, end - 1)
  }

  function At(rows: seq<Row>, high: bool, i: nat): seq<Swing>
    requires i < |rows|
  {
    var p := PriceOf(rows[i], high);
    if p.Some? then [Swing(i, p.value)] else []
  }

  function Last(h: seq<Swing>): real
    requires |h| >= 1
  {
    h[|h| - 1].price
  }

  function Previous(h: seq<Swing>): real
    requires |h| >= 2
  {
    h[|h| - 2].price
  }

  datatype Breaks = Breaks(bosUp: bool, bosDown: bool, chochUp: bool, chochDown: bool)

  // The flags of a bar, given the swing highs and lows up to it.
  function BreaksAt(highs: seq<Swing>, lows: seq<Swing>, high: real, low: real): Breaks
  {
    Breaks(
      |highs| >= 2 && high > Previous(highs),
      |lows| >= 2 && low < Previous(lows),
      |highs| >= 1 && |lows| >= 2 && Last(lows) < Previous(lows) && high > Last(highs),
      |lows| >= 1 && |highs| >= 2 && Last(highs) > Previous(highs) && low < Last(lows))
  }

  // The definition: all swings at rows up to i count.
  function Definition(high: seq<real>, low: seq<real>, rows: seq<Row>, i: nat): Breaks
    requires i < |high| == |low| == |rows|
  {
    BreaksAt(History(rows, true, 0, i + 1), History(rows, false, 0, i + 1), high[i], low[i])
  }

  // What the detector sees: the swings from row 1 on, of each kind the last three.
  function Bounded(h: seq<Swing>): seq<Swing> { if |h| > 3 then h[|h| - 3..] else h }

  function Detected(high: seq<real>, low: seq<real>, rows: seq<Row>, i: nat): Breaks
    requires i < |high| == |low| == |rows|
  {
    if i == 0 then NO_BREAKS
    else BreaksAt(Bounded(History(rows, true, 1, i + 1)), Bounded(History(rows, false, 1, i + 1)), high[i], low[i])
  }

  lemma BoundedIsEnough(highs: seq<Swing>, lows: seq<Swing>, high: real, low: real)
    ensures BreaksAt(Bounded(highs), Bounded(lows), high, low) == BreaksAt(highs, lows, high, low)
  {
  }

  lemma {:induction false} NothingAtRowZero(rows: seq<Row>, high: bool, end: nat)
    requires 0 < end <= |rows| && PriceOf(rows[0], high).None?
    ensures History(rows, high, 0, end) == History(rows, high, 1, end)
  {
    if end > 1 { NothingAtRowZero(rows, high, end - 1); }
  }

  // With no swing at row 0 the three remembered swings give exactly the flags
  // of the definition.
  lemma DetectedIsDefinition(high: seq<real>, low: seq<real>, rows: seq<Row>, i: nat)
    requires i < |high| == |low| == |rows|
    requires !rows[0].high && !rows[0].low
    ensures Detected(high, low, rows, i) == Definition(high, low, rows, i)
  {
    NothingAtRowZero(rows, true, i + 1);
    NothingAtRowZero(rows, false, i + 1);
    BoundedIsEnough(History(rows, true, 1, i + 1), History(rows, false, 1, i + 1), high[i], low[i]);
  }

  // The table of the swing points of a series.
  ghost predicate TableOf(rows: seq<Row>, high: seq<real>, low: seq<real>, window: nat)
  {
    |rows| == |high| == |low| && forall i :: 0 <= i < |rows| ==> rows[i] == RowOf(high, low, window, i)
  }

  // A window of one or more bars on each side makes no swing of row 0.
  lemma DetectedOnSwings(high: seq<real>, low: seq<real>, rows: seq<Row>, window: nat, i: nat)
    requires TableOf(rows, high, low, window) && i < |rows| && window >= 1
    ensures Detected(high, low, rows, i) == Definition(high, low, rows, i)
  {
    DetectedIsDefinition(high, low, rows, i);
  }

  // With a window of zero every bar is a swing, and the swing at row 0 is
  // lost: the second high breaks the first, but the detector does not see it.
  lemma WindowZeroWitness(rows: seq<Row>)
    requires TableOf(rows, [1.0, 2.0], [0.0, 0.0], 0)
    ensures Definition([1.0, 2.0], [0.0, 0.0], rows, 1).bosUp
    ensures !Detected([1.0, 2.0], [0.0, 0.0], rows, 1).bosUp
  {
    WindowZeroRowOne([1.0, 2.0], [0.0, 0.0], rows);
  }

  // Starting the history one row later leaves out the swing of row 0.
  lemma {:induction false} WithoutRowZero(rows: seq<Row>, high: bool, end: nat)
    requires 0 < end <= |rows|
    ensures History(rows, high, 0, end) == At(rows, high, 0) + History(rows, high, 1, end)
  {
    if end == 1 {
      assert History(rows, high, 0, 1) == History(rows, high, 0, 0) + At(rows, high, 0);
      assert At(rows, high, 0) + [] == At(rows, high, 0);
    } else {
      WithoutRowZero(rows, high, end - 1);
    }
  }

  // With a window of zero every bar is a swing at its own price.
  lemma EveryBarSwings(high: seq<real>, low: seq<real>, rows: seq<Row>, i: nat)
    requires TableOf(rows, high, low, 0) && i < |rows|
    ensures At(rows, true, i) == [Swing(i, high[i])] && At(rows, false, i) == [Swing(i, low[i])]
  {
    assert rows[i] == RowOf(high, low, 0, i);
  }

  lemma {:induction false} EveryBarCounts(high: seq<real>, low: seq<real>, rows: seq<Row>, end: nat)
    requires TableOf(rows, high, low, 0) && 0 < end <= |rows|
    ensures |History(rows, true, 1, end)| == |History(rows, false, 1, end)| == end - 1
  {
    if end > 1 {
      EveryBarCounts(high, low, rows, end - 1);
      EveryBarSwings(high, low, rows, end - 1);
    }
  }

  // An older swing in front of two others changes no flag.
  lemma OldestIsForgotten(highs: seq<Swing>, lows: seq<Swing>, oldHigh: Swing, oldLow: Swing, high: real, low: real)
    requires |highs| >= 2 && |lows| >= 2
    ensures BreaksAt([oldHigh] + highs, [oldLow] + lows, high, low) == BreaksAt(highs, lows, high, low)
  {
  }

  lemma WindowZeroRowOne(high: seq<real>, low: seq<real>, rows: seq<Row>)
    requires TableOf(rows, high, low, 0) && |rows| >= 2
    ensures Detected(high, low, rows, 1) == NO_BREAKS
    ensures Definition(high, low, rows, 1) == Breaks(high[1] > high[0], low[1] < low[0], false, false)
  {
    EveryBarSwings(high, low, rows, 0);
    EveryBarSwings(high, low, rows, 1);
    WithoutRowZero(rows, true, 2);
    WithoutRowZero(rows, false, 2);
    assert History(rows, true, 1, 2) == [Swing(1, high[1])];
    assert History(rows, false, 1, 2) == [Swing(1, low[1])];
    assert [Swing(0, high[0])] + [Swing(1, high[1])] == [Swing(0, high[0]), Swing(1, high[1])];
    assert [Swing(0, low[0])] + [Swing(1, low[1])] == [Swing(0, low[0]), Swing(1, low[1])];
  }

  lemma WindowZeroRow(high: seq<real>, low: seq<real>, rows: seq<Row>, i: nat)
    requires TableOf(rows, high, low, 0) && i < |rows| && i != 1
    ensures Detected(high, low, rows, i) == Definition(high, low, rows, i)
  {
    EveryBarSwings(high, low, rows, 0);
    WithoutRowZero(rows, true, i + 1);
    WithoutRowZero(rows, false, i + 1);
    EveryBarCounts(high, low, rows, i + 1);
    hide History, At;
    if i >= 2 {
      var highs, lows := History(rows, true, 1, i + 1), History(rows, false, 1, i + 1);
      BoundedIsEnough(highs, lows, high[i], low[i]);
      OldestIsForgotten(highs, lows, Swing(0, high[0]), Swing(0, low[0]), high[i], low[i]);
    }
  }

  // Exactly when the detector meets the definition at every row of a series:
  // for every window of at least one, and for a window of zero when the
  // second bar breaks neither the high nor the low of the first.
  lemma DetectorMeetsDefinitionIff(high: seq<real>, low: seq<real>, rows: seq<Row>, window: nat)
    requires TableOf(rows, high, low, window)
    ensures (forall i :: 0 <= i < |rows| ==> Detected(high, low, rows, i) == Definition(high, low, rows, i))
      <==> window >= 1 || |rows| < 2 || (high[1] <= high[0] && low[1] >= low[0])
  {
    hide Detected, Definition;
    if window == 0 && |rows| >= 2 { WindowZeroRowOne(high, low, rows); }
    forall i | 0 <= i < |rows| && (window >= 1 || i != 1)
      ensures Detected(high, low, rows, i) == Definition(high, low, rows, i)
    {
      if window >= 1 {
        DetectedOnSwings(high, low, rows, window, i);
      } else {
        WindowZeroRow(high, low, rows, i);
      }
    }
  }

  // Every entry is a recorded swing of a row in first .. end - 1.
  ghost predicate Recorded(rows: seq<Row>, high: bool, first: nat, end: nat, s: Swing)
    requires end <= |rows|
  {
    first <= s.index < end && PriceOf(rows[s.index], high) == Some(s.price)
  }

  lemma {:induction false} HistoryRecorded(rows: seq<Row>, high: bool, first: nat, end: nat, k: nat)
    requires end <= |rows| && k < |History(rows, high, first, end)|
    ensures Recorded(rows, high, first, end, History(rows, high, first, end)[k])
  {
    var init := History(rows, high, first, end - 1);
    if k < |init| { HistoryRecorded(rows, high, first, end - 1, k); }
  }

  lemma {:induction false} HistoryOrdered(rows: seq<Row>, high: bool, first: nat, end: nat, j: nat, k: nat)
    requires end <= |rows| && j < k < |History(rows, high, first, end)|
    ensures History(rows, high, first, end)[j].index < History(rows, high, first, end)[k].index
  {
    var init := History(rows, high, first, end - 1);
    if k < |init| {
      HistoryOrdered(rows, high, first, end - 1, j, k);
    } else {
      HistoryRecorded(rows, high, first, end - 1, j);
    }
  }

  lemma {:induction false} HistoryComplete(rows: seq<Row>, high: bool, first: nat, end: nat, s: Swing) returns (k: nat)
    requires end <= |rows| && Recorded(rows, high, first, end, s)
    ensures k < |History(rows, high, first, end)| && History(rows, high, first, end)[k] == s
  {
    if s.index < end - 1 {
      k := HistoryComplete(rows, high, first, end - 1, s);
    } else {
      k := |History(rows, high, first, end - 1)|;
    }
  }

  // The history is every recorded swing, once, in order.
  lemma HistoryIsAll(rows: seq<Row>, high: bool, first: nat, end: nat)
    requires end <= |rows|
    ensures var h := History(rows, high, first, end);
      && (forall s :: s in h <==> Recorded(rows, high, first, end, s))
      && (forall j, k :: 0 <= j < k < |h| ==> h[j].index < h[k].index)
  {
    hide History, Recorded;
    var h := History(rows, high, first, end);
    forall s ensures s in h <==> Recorded(rows, high, first, end, s) {
      if s in h {
        var k :| 0 <= k < |h| && h[k] == s;
        HistoryRecorded(rows, high, first, end, k);
      }
      if Recorded(rows, high, first, end, s) {
        var k := HistoryComplete(rows, high, first, end, s);
      }
    }
    forall j, k | 0 <= j < k < |h| ensures h[j].index < h[k].index {
      HistoryOrdered(rows, high, first, end, j, k);
    }
  }

  // ---------- the flags in terms of bars ----------

  ghost predicate IsSwing(xs: seq<real>, window: nat, up: bool, k: nat)
  {
    if up then SwingHigh(xs, window, k) else SwingLow(xs, window, k)
  }

  // Bar k is the last swing at or before bar i.
  ghost predicate LastSwing(xs: seq<real>, window: nat, up: bool, i: nat, k: nat)
  {
    k <= i && IsSwing(xs, window, up, k) && forall m :: k < m <= i ==> !IsSwing(xs, window, up, m)
  }

  // Bars j and k are the last two swings at or before bar i.
  ghost predicate LastTwo(xs: seq<real>, window: nat, up: bool, i: nat, j: nat, k: nat)
  {
    && LastSwing(xs, window, up, i, k)
    && j < k && IsSwing(xs, window, up, j) && forall m :: j < m < k ==> !IsSwing(xs, window, up, m)
  }

  // The table records the swings of a series, in one of the two directions.
  ghost predicate Records(rows: seq<Row>, xs: seq<real>, window: nat, up: bool)
  {
    |rows| == |xs| && forall i :: 0 <= i < |rows| ==>
      PriceOf(rows[i], up) == if IsSwing(xs, window, up, i) then Some(xs[i]) else None
  }

  // After entry p of a history and before the next one there is no swing.
  lemma NoneBetween(rows: seq<Row>, xs: seq<real>, window: nat, up: bool, i: nat, p: nat, m: nat)
    requires Records(rows, xs, window, up) && m <= i < |rows|
    requires var h := History(rows, up, 0, i + 1);
      p < |h| && h[p].index < m && (p + 1 < |h| ==> m < h[p + 1].index)
    ensures !IsSwing(xs, window, up, m)
  {
    hide History, IsSwing;
    HistoryIsAll(rows, up, 0, i + 1);
    var h := History(rows, up, 0, i + 1);
    forall q | 0 <= q < |h| ensures h[q].index != m {
      assert q < p ==> h[q].index < h[p].index;
      assert p + 1 < q ==> h[p + 1].index < h[q].index;
    }
    assert Recorded(rows, up, 0, i + 1, Swing(m, xs[m])) <==> IsSwing(xs, window, up, m);
  }

  // A history ends with the last two swings.
  lemma EndOfHistory(rows: seq<Row>, xs: seq<real>, window: nat, up: bool, i: nat)
    requires Records(rows, xs, window, up) && i < |rows|
    ensures var h := History(rows, up, 0, i + 1);
      && (|h| >= 1 ==> LastSwing(xs, window, up, i, h[|h| - 1].index) && Last(h) == xs[h[|h| - 1].index])
      && (|h| >= 2 ==> LastTwo(xs, window, up, i, h[|h| - 2].index, h[|h| - 1].index)
                       && Previous(h) == xs[h[|h| - 2].index])
  {
    hide History, IsSwing;
    HistoryIsAll(rows, up, 0, i + 1);
    var h := History(rows, up, 0, i + 1);
    var n := |h|;
    if n >= 1 {
      assert h[n - 1] in h;
      forall m: nat | h[n - 1].index < m <= i ensures !IsSwing(xs, window, up, m) {
        NoneBetween(rows, xs, window, up, i, n - 1, m);
      }
    }
    if n >= 2 {
      assert h[n - 2] in h;
      forall m: nat | h[n - 2].index < m < h[n - 1].index ensures !IsSwing(xs, window, up, m) {
        NoneBetween(rows, xs, window, up, i, n - 2, m);
      }
    }
  }

  // A history is as long as there are swings.
  lemma LengthOfHistory(rows: seq<Row>, xs: seq<real>, window: nat, up: bool, i: nat, j: nat, k: nat)
    requires Records(rows, xs, window, up) && j <= k <= i < |rows|
    requires IsSwing(xs, window, up, j) && IsSwing(xs, window, up, k)
    ensures |History(rows, up, 0, i + 1)| >= if j == k then 1 else 2
  {
    hide History, IsSwing;
    var a := HistoryComplete(rows, up, 0, i + 1, Swing(j, xs[j]));
    var b := HistoryComplete(rows, up, 0, i + 1, Swing(k, xs[k]));
  }

  lemma PreviousIff(rows: seq<Row>, xs: seq<real>, window: nat, up: bool, i: nat)
    requires Records(rows, xs, window, up) && i < |rows|
    ensures var h := History(rows, up, 0, i + 1);
      && (forall k: nat :: LastSwing(xs, window, up, i, k) ==> |h| >= 1 && Last(h) == xs[k])
      && (forall j: nat, k: nat :: LastTwo(xs, window, up, i, j, k) ==>
            |h| >= 2 && Previous(h) == xs[j] && Last(h) == xs[k])
      && (|h| >= 1 ==> exists k: nat :: LastSwing(xs, window, up, i, k))
      && (|h| >= 2 ==> exists j: nat, k: nat :: LastTwo(xs, window, up, i, j, k))
  {
    hide History, IsSwing;
    EndOfHistory(rows, xs, window, up, i);
    var h := History(rows, up, 0, i + 1);
    forall k: nat | LastSwing(xs, window, up, i, k) ensures |h| >= 1 && h[|h| - 1].index == k {
      LengthOfHistory(rows, xs, window, up, i, k, k);
    }
    forall j: nat, k: nat | LastTwo(xs, window, up, i, j, k) ensures |h| >= 2 && h[|h| - 2].index == j {
      LengthOfHistory(rows, xs, window, up, i, j, k);
    }
  }

  // The four flags of a bar by the definition, in terms of bars: a break is a
  // price beyond the last swing but one; a change of character is a price
  // beyond the last swing while the other side made a lower low, or a higher
  // high.
  lemma FlagsMeaning(high: seq<real>, low: seq<real>, rows: seq<Row>, window: nat, i: nat)
    requires TableOf(rows, high, low, window) && i < |rows|
    ensures var f := Definition(high, low, rows, i);
      && (f.bosUp <==> exists j: nat, k: nat :: LastTwo(high, window, true, i, j, k) && high[i] > high[j])
      && (f.bosDown <==> exists j: nat, k: nat :: LastTwo(low, window, false, i, j, k) && low[i] < low[j])
      && (f.chochUp <==>
            && (exists k: nat :: LastSwing(high, window, true, i, k) && high[i] > high[k])
            && (exists j: nat, k: nat :: LastTwo(low, window, false, i, j, k) && low[k] < low[j]))
      && (f.chochDown <==>
            && (exists k: nat :: LastSwing(low, window, false, i, k) && low[i] < low[k])
            && (exists j: nat, k: nat :: LastTwo(high, window, true, i, j, k) && high[k] > high[j]))
  {
    assert Records(rows, high, window, true) && Records(rows, low, window, false);
    PreviousIff(rows, high, window, true, i);
    PreviousIff(rows, low, window, false, i);
    hide History, TableOf, Records, LastSwing;
  }

  // ---------- no repainting ----------

  // Appending bars leaves the swing status of every bar that already has its
  // whole window.
  lemma SwingsSettle(high: seq<real>, more: seq<real>, window: nat, i: nat)
    requires i < |high| - window
    ensures SwingHigh(high + more, window, i) == SwingHigh(high, window, i)
    ensures SwingLow(high + more, window, i) == SwingLow(high, window, i)
  {
    var all := high + more;
    if window <= i {
      assert forall j :: i - window <= j <= i + window ==> all[j] == high[j];
    }
  }

  lemma {:induction false} HistorySettles(rows: seq<Row>, rows': seq<Row>, high: bool, first: nat, end: nat)
    requires end <= |rows| && end <= |rows'| && forall j :: 0 <= j < end ==> rows'[j] == rows[j]
    ensures History(rows', high, first, end) == History(rows, high, first, end)
  {
    if first < end { HistorySettles(rows, rows', high, first, end - 1); }
  }

  // With any window, flags more than a window before the last bar never
  // change when bars are appended: neither what the detector returns nor the
  // definition.
  lemma NoRepainting(high: seq<real>, low: seq<real>, moreHigh: seq<real>, moreLow: seq<real>, window: nat,
                     rows: seq<Row>, rows': seq<Row>, i: nat)
    requires |moreHigh| == |moreLow|
    requires TableOf(rows, high, low, window) && TableOf(rows', high + moreHigh, low + moreLow, window)
    requires i < |high| - window
    ensures Detected(high + moreHigh, low + moreLow, rows', i) == Detected(high, low, rows, i)
    ensures Definition(high + moreHigh, low + moreLow, rows', i) == Definition(high, low, rows, i)
  {
    forall j | 0 <= j <= i ensures rows'[j] == rows[j] {
      SwingsSettle(high, moreHigh, window, j);
      SwingsSettle(low, moreLow, window, j);
    }
    HistorySettles(rows, rows', true, 0, i + 1);
    HistorySettles(rows, rows', false, 0, i + 1);
    HistorySettles(rows, rows', true, 1, i + 1);
    HistorySettles(rows, rows', false, 1, i + 1);
  }

  // The bar exactly a window before the last one can still change: appending
  // one bar to the highs 1, 5, 1, 6 turns the 6 into a swing that breaks the 5.
  lemma RepaintingWitness(rows: seq<Row>, rows': seq<Row>)
    requires TableOf(rows, [1.0, 5.0, 1.0, 6.0], [0.0, 0.0, 0.0, 0.0], 1)
    requires TableOf(rows', [1.0, 5.0, 1.0, 6.0, 1.0], [0.0, 0.0, 0.0, 0.0, 0.0], 1)
    ensures !Detected([1.0, 5.0, 1.0, 6.0], [0.0, 0.0, 0.0, 0.0], rows, 3).bosUp
    ensures Detected([1.0, 5.0, 1.0, 6.0, 1.0], [0.0, 0.0, 0.0, 0.0, 0.0], rows', 3).bosUp
  {
    var high, high' := [1.0, 5.0, 1.0, 6.0], [1.0, 5.0, 1.0, 6.0, 1.0];
    var low, low' := [0.0, 0.0, 0.0, 0.0], [0.0, 0.0, 0.0, 0.0, 0.0];
    DetectedOnSwings(high, low, rows, 1, 3);
    DetectedOnSwings(high', low', rows', 1, 3);
    WitnessHistory(rows, high, low);
    WitnessHistory(rows', high', low');
    hide TableOf, Detected, History;
  }

  // The 6 counts as a swing once a bar follows it.
  lemma WitnessHistory(rows: seq<Row>, high: seq<real>, low: seq<real>)
    requires TableOf(rows, high, low, 1) && (high == [1.0, 5.0, 1.0, 6.0] || high == [1.0, 5.0, 1.0, 6.0, 1.0])
    ensures History(rows, true, 0, 4)
         == if |high| == 4 then [Swing(1, 5.0)] else [Swing(1, 5.0), Swing(3, 6.0)]
  {
    hide SwingLow;
    assert rows[0] == RowOf(high, low, 1, 0) && rows[1] == RowOf(high, low, 1, 1);
    assert rows[2] == RowOf(high, low, 1, 2) && rows[3] == RowOf(high, low, 1, 3);
    assert SwingHigh(high, 1, 1) && (SwingHigh(high, 1, 3) <==> |high| == 5);
    assert !SwingHigh(high, 1, 2) by { assert high[3] > high[2]; }
    assert At(rows, true, 0) == [] && At(rows, true, 1) == [Swing(1, 5.0)] && At(rows, true, 2) == [];
    assert At(rows, true, 3) == if |high| == 4 then [] else [Swing(3, 6.0)];
    assert History(rows, true, 0, 1) == [];
    assert History(rows, true, 0, 2) == [Swing(1, 5.0)];
    assert History(rows, true, 0, 3) == [Swing(1, 5.0)];
  }

  // ---------- the detector ----------

  // Appends a swing and drops the oldest one beyond three.
  method Remember(swings: seq<Swing>, s: seq<Swing>, ghost all: seq<Swing>) returns (r: seq<Swing>)
    requires |s| <= 1 && swings == Bounded(all)
    ensures r == Bounded(all + s) && |r| == if |all + s| > 3 then 3 else |all + s|
  {
    r := swings + s;
    if |r| > 3 {
      r := r[1..];
    }
  }

  const NO_BREAKS := Breaks(false, false, false, false)

  // Sets the flags of one bar in the table.
  method MarkBreaks(result: array<Breaks>, i: nat, highs: seq<Swing>, lows: seq<Swing>, high: real, low: real)
    requires i < result.Length && result[i] == NO_BREAKS
    modifies result
    ensures result[..] == old(result[..])[i := BreaksAt(highs, lows, high, low)]
  {
    if |highs| >= 2 && high > highs[|highs| - 2].price {
      result[i] := result[i].(bosUp := true);
    }
    if |lows| >= 2 && low < lows[|lows| - 2].price {
      result[i] := result[i].(bosDown := true);
    }
    if |highs| >= 1 && |lows| >= 2 {
      if lows[|lows| - 1].price < lows[|lows| - 2].price {
        if high > highs[|highs| - 1].price {
          result[i] := result[i].(chochUp := true);
        }
      }
    }
    if |lows| >= 1 && |highs| >= 2 {
      if highs[|highs| - 1].price > highs[|highs| - 2].price {
        if low < lows[|lows| - 1].price {
          result[i] := result[i].(chochDown := true);
        }
      }
    }
  }

  method DetectStructureBreaks(high: seq<real>, low: seq<real>, rows: seq<Row>) returns (result: array<Breaks>)
    requires |high| == |low| == |rows|
    ensures fresh(result) && result.Length == |rows|
    ensures forall i :: 0 <= i < |rows| ==> result[i] == Detected(high, low, rows, i)
  {
    hide BreaksAt, History, Bounded, At;
    var n := |rows|;
    result := new Breaks[n];
    for k := 0 to n
      invariant forall j :: 0 <= j < k ==> result[j] == NO_BREAKS
    {
      result[k] := NO_BREAKS;
    }
    if n == 0 { return; }
    var lastHighs: seq<Swing>, lastLows: seq<Swing> := [], [];
    NothingYet(rows);
    var i := 1;
    while i < n
      invariant 1 <= i <= n
      invariant lastHighs == Bounded(History(rows, true, 1, i))
      invariant lastLows == Bounded(History(rows, false, 1, i))
      invariant forall k :: 0 <= k < i ==> result[k] == Detected(high, low, rows, k)
      invariant forall k :: i <= k < n ==> result[k] == NO_BREAKS
    {
      OneMore(rows, i);
      lastHighs := Remember(lastHighs, At(rows, true, i), History(rows, true, 1, i));
      lastLows := Remember(lastLows, At(rows, false, i), History(rows, false, 1, i));
      ghost var before := result[..];
      MarkBreaks(result, i, lastHighs, lastLows, high[i], low[i]);
      assert forall k :: 0 <= k < n && k != i ==> result[..][k] == before[k];
      i := i + 1;
    }
  }

  lemma NothingYet(rows: seq<Row>)
    requires |rows| >= 1
    ensures Bounded(History(rows, true, 1, 1)) == [] && Bounded(History(rows, false, 1, 1)) == []
  {
  }

  lemma OneMore(rows: seq<Row>, i: nat)
    requires 1 <= i < |rows|
    ensures History(rows, true, 1, i + 1) == History(rows, true, 1, i) + At(rows, true, i)
    ensures History(rows, false, 1, i + 1) == History(rows, false, 1, i) + At(rows, false, i)
    ensures |At(rows, true, i)| <= 1 && |At(rows, false, i)| <= 1
  {
  }
}
