/** Maximum drawdown of an equity curve: the one-pass computation with a
    running peak against its definition over all pairs of points. */
module Drawdown {
  import opened RealMath

  datatype Tracker = Tracker(peak: real, worst: real)

  // How far e lies below the peak, as a share of the peak.
  function Below(peak: real, e: real): real { if peak > 0.0 then (peak - e) / peak else 0.0 }

  function Track(t: Tracker, e: real): Tracker
  {
    var peak := Max(t.peak, e);
    Tracker(peak, Max(t.worst, Below(peak, e)))
  }

  function TrackAll(curve: seq<real>): Tracker
    requires curve != []
  {
    if |curve| == 1 then Tracker(curve[0], 0.0)
    else Track(TrackAll(curve[..|curve| - 1]), curve[|curve| - 1])
  }

  // The fall from point i to point j, as a share of point i.
  function Fall(curve: seq<real>, i: nat, j: nat): real
    requires i < |curve| && j < |curve| && curve[i] > 0.0
  {
    (curve[i] - curve[j]) / curve[i]
  }

  ghost predicate Positive(curve: seq<real>)
  {
    forall i :: 0 <= i < |curve| ==> curve[i] > 0.0
  }

  // d is the largest fall from any point to the same or a later one.
  ghost predicate IsMaxDrawdown(curve: seq<real>, d: real)
    requires Positive(curve)
  {
    && (forall i, j :: 0 <= i <= j < |curve| ==> Fall(curve, i, j) <= d)
    && (exists i, j :: 0 <= i <= j < |curve| && Fall(curve, i, j) == d)
  }

  ghost predicate IsPeak(curve: seq<real>, p: real)
  {
    && (forall i :: 0 <= i < |curve| ==> curve[i] <= p)
    && (exists i :: 0 <= i < |curve| && curve[i] == p)
  }

  lemma FallGrows(x: real, y: real, e: real)
    requires 0.0 < x <= y && e > 0.0
    ensures (x - e) / x <= (y - e) / y
  {
    ShareLeft(x, e);
    ShareLeft(y, e);
    InverseMonotone(x, y, e);
  }

  lemma ShareLeft(x: real, e: real)
    requires x > 0.0
    ensures (x - e) / x == 1.0 - e / x
  {
    var q := e / x;
    assert q * x == e;
    assert (1.0 - q) * x == x - e;
    QuotientIs(x - e, x, 1.0 - q);
  }

  lemma InverseMonotone(x: real, y: real, e: real)
    requires 0.0 < x <= y && e > 0.0
    ensures e / y <= e / x
  {
    assert e / x * x == e;
    assert e / x * y >= e / x * x by { assert e / x > 0.0; TimesMonotone(x, y, e / x); }
    QuotientAtMost(e, y, e / x);
  }

  lemma PeakGrows(curve: seq<real>, p: real)
    requires |curve| >= 2 && IsPeak(curve[..|curve| - 1], p)
    ensures IsPeak(curve, Max(p, curve[|curve| - 1]))
  {
    var n := |curve| - 1;
    var i :| 0 <= i < n && curve[..n][i] == p;
    assert curve[i] == p;
    assert forall k :: 0 <= k < n ==> curve[k] == curve[..n][k];
  }

  lemma LastFalls(curve: seq<real>, n: nat, p: real)
    requires |curve| == n + 1 && Positive(curve) && IsPeak(curve, p)
    ensures forall i :: 0 <= i <= n ==> Fall(curve, i, n) <= Below(p, curve[n])
    ensures exists i :: 0 <= i <= n && Fall(curve, i, n) == Below(p, curve[n])
  {
    var m :| 0 <= m < |curve| && curve[m] == p;
    assert Fall(curve, m, n) == Below(p, curve[n]);
    forall i | 0 <= i < |curve| ensures Fall(curve, i, n) <= Below(p, curve[n]) {
      FallGrows(curve[i], p, curve[n]);
    }
  }

  lemma DrawdownGrows(curve: seq<real>, n: nat, d: real, last: real)
    requires |curve| == n + 1 && Positive(curve)
    requires IsMaxDrawdown(curve[..n], d)
    requires forall i :: 0 <= i <= n ==> Fall(curve, i, n) <= last
    requires exists i :: 0 <= i <= n && Fall(curve, i, n) == last
    ensures IsMaxDrawdown(curve, Max(d, last))
  {
    var init := curve[..n];
    forall i, j | 0 <= i <= j < |curve| ensures Fall(curve, i, j) <= Max(d, last) {
      if j < n { assert Fall(init, i, j) == Fall(curve, i, j); }
    }
    if d >= last {
      var i, j :| 0 <= i <= j < n && Fall(init, i, j) == d;
      assert Fall(curve, i, j) == d;
    }
  }

  // On every positive curve the one pass finds the maximum drawdown.
  lemma {:induction false} OnePassIsMaxDrawdown(curve: seq<real>)
    requires curve != [] && Positive(curve)
    ensures IsPeak(curve, TrackAll(curve).peak)
    ensures IsMaxDrawdown(curve, TrackAll(curve).worst)
  {
    var n := |curve| - 1;
    if n == 0 {
      assert Fall(curve, 0, 0) == 0.0;
    } else {
      OnePassIsMaxDrawdown(curve[..n]);
      PeakGrows(curve, TrackAll(curve[..n]).peak);
      LastFalls(curve, n, TrackAll(curve).peak);
      DrawdownGrows(curve, n, TrackAll(curve[..n]).worst, Below(TrackAll(curve).peak, curve[n]));
    }
  }
  // A curve that never gets above zero has no drawdown.
  lemma {:induction false} NeverPositive(curve: seq<real>)
    requires curve != [] && forall i :: 0 <= i < |curve| ==> curve[i] <= 0.0
    ensures TrackAll(curve).peak <= 0.0 && TrackAll(curve).worst == 0.0
  {
    if |curve| > 1 { NeverPositive(curve[..|curve| - 1]); }
  }
}
