/** Real-number helpers shared by the models: bounds, sums of sequences and
    maps, powers, and decimal rounding. */
module RealMath {

  function Abs(x: real): real { if x < 0.0 then -x else x }

  function Min(x: real, y: real): real { if x <= y then x else y }

  function Max(x: real, y: real): real { if x >= y then x else y }

  function MaxOf(s: seq<real>): (m: real)
    requires s != []
    ensures m in s && forall i :: 0 <= i < |s| ==> s[i] <= m
  {
    if |s| == 1 then s[0] else Max(MaxOf(s[..|s| - 1]), s[|s| - 1])
  }

  function MinOf(s: seq<real>): (m: real)
    requires s != []
    ensures m in s && forall i :: 0 <= i < |s| ==> s[i] >= m
  {
    if |s| == 1 then s[0] else Min(MinOf(s[..|s| - 1]), s[|s| - 1])
  }

  // ---------- products and quotients ----------

  lemma TimesMonotone(x: real, y: real, w: real)
    requires w >= 0.0 && x <= y
    ensures x * w <= y * w
  {
  }

  lemma TimesStrictly(x: real, y: real, w: real)
    requires w > 0.0 && x < y
    ensures x * w < y * w
  {
  }

  lemma SignOfProduct(a: real, b: real)
    requires a > 0.0
    ensures a * b > 0.0 <==> b > 0.0
    ensures a * b < 0.0 <==> b < 0.0
  {
  }

  lemma SignOfQuotient(c: real, w: real)
    requires w > 0.0
    ensures c / w > 0.0 <==> c > 0.0
  {
  }

  lemma QuotientIs(c: real, x: real, a: real)
    requires x != 0.0 && c == a * x
    ensures c / x == a
  {
    var v := c / x;
    assert v * x == c;
    assert (v - a) * x == 0.0;
  }

  lemma QuotientAtMost(c: real, w: real, hi: real)
    requires w > 0.0 && c <= hi * w
    ensures c / w <= hi
  {
    assert hi * w / w == hi;
    DivideMonotone(c, hi * w, w);
  }

  lemma QuotientAtLeast(c: real, w: real, lo: real)
    requires w > 0.0 && lo * w <= c
    ensures lo <= c / w
  {
    assert lo * w / w == lo;
    DivideMonotone(lo * w, c, w);
  }

  // The part of a quantity that x stands for within a total.
  function Share(quantity: real, x: real, total: real): real
    requires total != 0.0
  {
    quantity * (x / total)
  }

  lemma ShareIs(quantity: real, x: real, total: real)
    requires total != 0.0
    ensures Share(quantity, x, total) * total == quantity * x
  {
    var r := x / total;
    assert r * total == x;
  }

  lemma ShareSplits(quantity: real, x: real, y: real, total: real)
    requires total != 0.0
    ensures Share(quantity, x + y, total) == Share(quantity, x, total) + Share(quantity, y, total)
  {
    var a, b := x / total, y / total;
    assert a * total == x && b * total == y;
    assert (a + b) * total == x + y;
    QuotientIs(x + y, total, a + b);
    assert quantity * (a + b) == quantity * a + quantity * b;
  }

  lemma ShareOfNothing(quantity: real, total: real)
    requires total != 0.0
    ensures Share(quantity, 0.0, total) == 0.0
  {
    QuotientIs(0.0, total, 0.0);
  }

  lemma DivideMonotone(x: real, y: real, w: real)
    requires w > 0.0 && x <= y
    ensures x / w <= y / w
  {
  }

  lemma WeightedMonotone(x: real, y: real, w: real)
    requires w >= 0.0 && (w > 0.0 ==> x <= y)
    ensures x * w <= y * w
  {
    if w == 0.0 {
      assert x * w == 0.0 == y * w;
    }
  }

  lemma AverageAtMost(x: real, a: real, y: real, b: real, w: real, hi: real)
    requires a >= 0.0 && b > 0.0 && w == a + b
    requires (a > 0.0 ==> x <= hi) && y <= hi
    ensures (x * a + y * b) / w <= hi
  {
    WeightedMonotone(x, hi, a);
    WeightedMonotone(y, hi, b);
    assert hi * w == hi * a + hi * b;
    QuotientAtMost(x * a + y * b, w, hi);
  }

  lemma AverageAtLeast(x: real, a: real, y: real, b: real, w: real, lo: real)
    requires a >= 0.0 && b > 0.0 && w == a + b
    requires (a > 0.0 ==> lo <= x) && lo <= y
    ensures lo <= (x * a + y * b) / w
  {
    WeightedMonotone(lo, x, a);
    WeightedMonotone(lo, y, b);
    assert lo * w == lo * a + lo * b;
    QuotientAtLeast(x * a + y * b, w, lo);
  }

  // A weighted average stays within any range that holds both values.
  lemma AverageWithin(x: real, a: real, y: real, b: real, w: real, lo: real, hi: real)
    requires a >= 0.0 && b > 0.0 && w == a + b
    requires a > 0.0 ==> lo <= x <= hi
    requires lo <= y <= hi
    ensures lo <= (x * a + y * b) / w <= hi
  {
    AverageAtLeast(x, a, y, b, w, lo);
    AverageAtMost(x, a, y, b, w, hi);
  }

  // ---------- sums of sequences ----------

  function Sum(xs: seq<real>): real
  {
    if xs == [] then 0.0 else Sum(xs[..|xs| - 1]) + xs[|xs| - 1]
  }

  lemma SumAppend(xs: seq<real>, x: real)
    ensures Sum(xs + [x]) == Sum(xs) + x
  {
    assert (xs + [x])[..|xs|] == xs;
  }

  lemma {:induction false} SumConcat(xs: seq<real>, ys: seq<real>)
    ensures Sum(xs + ys) == Sum(xs) + Sum(ys)
    decreases |ys|
  {
    if ys == [] {
      assert xs + ys == xs;
    } else {
      var init, last := ys[..|ys| - 1], ys[|ys| - 1];
      assert xs + ys == (xs + init) + [last];
      SumAppend(xs + init, last);
      SumConcat(xs, init);
    }
  }

  lemma {:induction false} SumTail(xs: seq<real>)
    requires xs != []
    ensures Sum(xs) == xs[0] + Sum(xs[1..])
  {
    assert xs == [xs[0]] + xs[1..];
    SumConcat([xs[0]], xs[1..]);
    assert [xs[0]] == [] + [xs[0]];
    SumAppend([], xs[0]);
  }

  lemma {:induction false} SumNonNegative(xs: seq<real>)
    requires forall i :: 0 <= i < |xs| ==> xs[i] >= 0.0
    ensures Sum(xs) >= 0.0
    ensures forall i :: 0 <= i < |xs| ==> xs[i] <= Sum(xs)
  {
    if xs != [] {
      SumNonNegative(xs[..|xs| - 1]);
    }
  }

  // n copies of e added up.
  function Times(n: nat, e: real): real { if n == 0 then 0.0 else Times(n - 1, e) + e }

  lemma {:induction false} TimesIsProduct(n: nat, e: real)
    ensures Times(n, e) == n as real * e
  {
    if n != 0 {
      TimesIsProduct(n - 1, e);
      assert n as real == (n - 1) as real + 1.0;
    }
  }

  // Two sequences that differ by at most e at every position have sums that
  // differ by at most n copies of e.
  lemma {:induction false} SumClose(xs: seq<real>, ys: seq<real>, e: real)
    requires |xs| == |ys|
    requires forall i :: 0 <= i < |xs| ==> Abs(xs[i] - ys[i]) <= e
    ensures Abs(Sum(xs) - Sum(ys)) <= Times(|xs|, e)
  {
    var n := |xs|;
    if n != 0 {
      SumClose(xs[..n - 1], ys[..n - 1], e);
      assert Abs(xs[n - 1] - ys[n - 1]) <= e;
    }
  }

  // ---------- sums of maps ----------

  // The sum of a finite map's values, added up in some order.
  ghost function Total(m: map<string, real>): real
    decreases |m|
  {
    if m == map[] then 0.0 else
      var k :| k in m;
      assert |(m - {k}).Keys| < |m.Keys| by { assert (m - {k}).Keys == m.Keys - {k}; }
      m[k] + Total(m - {k})
  }

  // The order does not matter: any key can be taken out first.
  lemma {:induction false} TotalRemove(m: map<string, real>, k: string)
    requires k in m
    ensures Total(m) == m[k] + Total(m - {k})
    decreases |m|
  {
    var j :| j in m && Total(m) == m[j] + Total(m - {j});
    if j != k {
      var mj, mk := m - {j}, m - {k};
      assert mj.Keys == m.Keys - {j} && mk.Keys == m.Keys - {k};
      assert |mj.Keys| < |m.Keys| && |mk.Keys| < |m.Keys|;
      TotalRemove(mj, k);
      TotalRemove(mk, j);
      assert mj - {k} == mk - {j};
    }
  }

  // ---------- powers ----------

  function Pow(b: real, n: nat): real { if n == 0 then 1.0 else b * Pow(b, n - 1) }

  // ---------- rounding to eight decimals ----------

  const HALF_UNIT: real := 0.000000005

  // The nearest integer, ties to the even one, as Python's round does.
  function Nearest(y: real): int
  {
    var n := y.Floor;
    var d := y - n as real;
    if d < 0.5 then n else if d > 0.5 then n + 1 else if n % 2 == 0 then n else n + 1
  }

  lemma NearestBounds(y: real)
    ensures Abs(Nearest(y) as real - y) <= 0.5
  {
  }

  // Half way between two integers it is the even one.
  lemma NearestIff(y: real, n: int)
    ensures Nearest(y) == n <==> Abs(n as real - y) <= 0.5 && (Abs(n as real - y) == 0.5 ==> n % 2 == 0)
  {
  }

  function Round8(x: real): real { Nearest(x * 100000000.0) as real / 100000000.0 }

  // Rounding moves a value by at most half a unit.
  lemma Round8Error(x: real)
    ensures Abs(Round8(x) - x) <= HALF_UNIT
  {
    var y := x * 100000000.0;
    NearestBounds(y);
    assert Round8(x) - x == (Nearest(y) as real - y) / 100000000.0;
  }
}
