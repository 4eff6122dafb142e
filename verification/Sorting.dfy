/** Stable sorting by a real key: what Python's sorted promises, an insertion
    sort that meets it, and how it commutes with filtering. */
module Sorting {

  ghost predicate SortedBy<T(!new)>(s: seq<T>, key: T -> real)
  {
    forall i, j :: 0 <= i < j < |s| ==> key(s[i]) <= key(s[j])
  }

  function Filter<T>(s: seq<T>, p: T -> bool): seq<T>
  {
    if s == [] then []
    else Filter(s[..|s| - 1], p) + (if p(s[|s| - 1]) then [s[|s| - 1]] else [])
  }

  // Puts x behind every element whose key is not larger.
  function Insert<T>(s: seq<T>, x: T, key: T -> real): seq<T>
  {
    if s == [] || key(s[|s| - 1]) <= key(x) then s + [x]
    else Insert(s[..|s| - 1], x, key) + [s[|s| - 1]]
  }

  function Sort<T>(s: seq<T>, key: T -> real): seq<T>
  {
    if s == [] then [] else Insert(Sort(s[..|s| - 1], key), s[|s| - 1], key)
  }

  // ---------- filtering ----------

  lemma FilterAppend<T>(s: seq<T>, x: T, p: T -> bool)
    ensures Filter(s + [x], p) == Filter(s, p) + (if p(x) then [x] else [])
  {
    assert (s + [x])[..|s|] == s;
  }

  lemma {:induction false} FilterIn<T>(s: seq<T>, p: T -> bool)
    ensures forall x :: x in Filter(s, p) <==> x in s && p(x)
  {
    if s != [] {
      FilterIn(s[..|s| - 1], p);
      assert s == s[..|s| - 1] + [s[|s| - 1]];
    }
  }

  // The positions at[0], at[1], .. of s hold what a filter keeps of it: the
  // elements that pass, each once and in their old order.
  ghost predicate Positions<T>(s: seq<T>, p: T -> bool, kept: seq<T>, at: seq<nat>)
  {
    && |at| == |kept|
    && (forall k :: 0 <= k < |at| ==> at[k] < |s| && kept[k] == s[at[k]])
    && (forall j, k :: 0 <= j < k < |at| ==> at[j] < at[k])
    && (forall i: nat :: i < |s| ==> (i in at <==> p(s[i])))
  }

  lemma {:induction false} FilterPositions<T>(s: seq<T>, p: T -> bool) returns (at: seq<nat>)
    ensures Positions(s, p, Filter(s, p), at)
  {
    if s == [] {
      at := [];
    } else {
      var n := |s| - 1;
      var before := FilterPositions(s[..n], p);
      at := if p(s[n]) then before + [n] else before;
      PositionsMore(s, p, Filter(s[..n], p), before, at);
    }
  }

  lemma PositionsMore<T>(s: seq<T>, p: T -> bool, kept: seq<T>, before: seq<nat>, at: seq<nat>)
    requires s != [] && Positions(s[..|s| - 1], p, kept, before)
    requires at == if p(s[|s| - 1]) then before + [|s| - 1] else before
    ensures Positions(s, p, kept + (if p(s[|s| - 1]) then [s[|s| - 1]] else []), at)
  {
    var n: nat := |s| - 1;
    assert n !in before;
    forall i: nat | i < |s| ensures i in at <==> p(s[i]) {
      if i < n { assert s[..n][i] == s[i] && (i in at <==> i in before); }
    }
  }

  lemma {:induction false} FilterTwice<T(!new)>(s: seq<T>, p: T -> bool, q: T -> bool, both: T -> bool)
    requires forall x :: both(x) <==> p(x) && q(x)
    ensures Filter(Filter(s, p), q) == Filter(s, both)
  {
    if s != [] {
      var init, last := s[..|s| - 1], s[|s| - 1];
      FilterTwice(init, p, q, both);
      var kept := Filter(init, p);
      if p(last) { FilterAppend(kept, last, q); } else { assert kept + [] == kept; }
    }
  }

  lemma {:induction false} FilterConcat<T>(s: seq<T>, t: seq<T>, p: T -> bool)
    ensures Filter(s + t, p) == Filter(s, p) + Filter(t, p)
    decreases |t|
  {
    if t == [] {
      assert s + t == s;
    } else {
      var init, last := t[..|t| - 1], t[|t| - 1];
      assert s + t == (s + init) + [last];
      FilterConcat(s, init, p);
      FilterAppend(s + init, last, p);
    }
  }

  lemma {:induction false} FilterAll<T>(s: seq<T>, p: T -> bool)
    requires forall x :: x in s ==> p(x)
    ensures Filter(s, p) == s
  {
    if s != [] {
      var init, last := s[..|s| - 1], s[|s| - 1];
      assert s == init + [last];
      forall x | x in init ensures p(x) { assert x in s; }
      FilterAll(init, p);
      assert last in s;
    }
  }

  lemma {:induction false} FilterNone<T>(s: seq<T>, p: T -> bool)
    requires forall x :: x in s ==> !p(x)
    ensures Filter(s, p) == []
  {
    if s != [] {
      var init, last := s[..|s| - 1], s[|s| - 1];
      assert s == init + [last];
      forall x | x in init ensures !p(x) { assert x in s; }
      FilterNone(init, p);
      assert last in s;
    }
  }

  // ---------- the sort is an ordered permutation ----------

  lemma {:induction false} InsertAdds<T(!new)>(s: seq<T>, x: T, key: T -> real)
    ensures multiset(Insert(s, x, key)) == multiset(s) + multiset{x}
  {
    if !(s == [] || key(s[|s| - 1]) <= key(x)) {
      InsertAdds(s[..|s| - 1], x, key);
      assert s == s[..|s| - 1] + [s[|s| - 1]];
    }
  }

  lemma InsertIn<T(!new)>(s: seq<T>, x: T, key: T -> real, y: T)
    requires y in Insert(s, x, key)
    ensures y in s || y == x
  {
    InsertAdds(s, x, key);
    assert y in multiset(Insert(s, x, key));
  }

  lemma AppendLargest<T(!new)>(s: seq<T>, x: T, key: T -> real)
    requires SortedBy(s, key) && forall y :: y in s ==> key(y) <= key(x)
    ensures SortedBy(s + [x], key)
  {
  }

  lemma LastIsLargest<T(!new)>(s: seq<T>, key: T -> real, y: T)
    requires SortedBy(s, key) && y in s
    ensures key(y) <= key(s[|s| - 1])
  {
    var i :| 0 <= i < |s| && s[i] == y;
    if i < |s| - 1 { assert key(s[i]) <= key(s[|s| - 1]); }
  }

  lemma {:induction false} InsertSorts<T(!new)>(s: seq<T>, x: T, key: T -> real)
    requires SortedBy(s, key)
    ensures SortedBy(Insert(s, x, key), key)
  {
    if s == [] || key(s[|s| - 1]) <= key(x) {
      forall y | y in s ensures key(y) <= key(x) { LastIsLargest(s, key, y); }
      AppendLargest(s, x, key);
    } else {
      var init, last := s[..|s| - 1], s[|s| - 1];
      InsertSorts(init, x, key);
      var r := Insert(init, x, key);
      forall y | y in r ensures key(y) <= key(last) {
        InsertIn(init, x, key, y);
        if y in init { LastIsLargest(s, key, y); }
      }
      AppendLargest(r, last, key);
    }
  }

  lemma {:induction false} SortSorts<T(!new)>(s: seq<T>, key: T -> real)
    ensures SortedBy(Sort(s, key), key)
    ensures multiset(Sort(s, key)) == multiset(s)
  {
    hide Insert;
    if s != [] {
      SortSorts(s[..|s| - 1], key);
      InsertSorts(Sort(s[..|s| - 1], key), s[|s| - 1], key);
      InsertAdds(Sort(s[..|s| - 1], key), s[|s| - 1], key);
      assert s == s[..|s| - 1] + [s[|s| - 1]];
    }
  }

  // ---------- filtering commutes with sorting ----------

  lemma InsertLargest<T(!new)>(s: seq<T>, x: T, key: T -> real, p: T -> bool)
    requires SortedBy(s, key) && (s != [] ==> key(s[|s| - 1]) <= key(x))
    ensures Insert(Filter(s, p), x, key) == Filter(s, p) + [x]
  {
    var f := Filter(s, p);
    if f != [] {
      FilterIn(s, p);
      assert f[|f| - 1] in s;
      LastIsLargest(s, key, f[|f| - 1]);
    }
  }

  lemma InsertBefore<T(!new)>(s: seq<T>, x: T, key: T -> real, last: T)
    requires key(x) < key(last)
    ensures Insert(s + [last], x, key) == Insert(s, x, key) + [last]
  {
    assert (s + [last])[..|s|] == s;
  }

  function InsertIf<T>(yes: bool, s: seq<T>, x: T, key: T -> real): seq<T>
  {
    if yes then Insert(s, x, key) else s
  }

  lemma {:induction false} InsertCommutes<T(!new)>(s: seq<T>, x: T, key: T -> real, p: T -> bool)
    requires SortedBy(s, key)
    ensures Filter(Insert(s, x, key), p) == InsertIf(p(x), Filter(s, p), x, key)
  {
    if s == [] || key(s[|s| - 1]) <= key(x) {
      FilterAppend(s, x, p);
      InsertLargest(s, x, key, p);
      assert Filter(s, p) + [] == Filter(s, p);
    } else {
      var init, last := s[..|s| - 1], s[|s| - 1];
      InsertCommutes(init, x, key, p);
      FilterAppend(Insert(init, x, key), last, p);
      InsertBefore(Filter(init, p), x, key, last);
      assert Filter(init, p) + [] == Filter(init, p);
      assert Filter(Insert(init, x, key), p) + [] == Filter(Insert(init, x, key), p);
    }
  }

  lemma SortAppend<T>(s: seq<T>, x: T, key: T -> real)
    ensures Sort(s + [x], key) == Insert(Sort(s, key), x, key)
  {
    assert (s + [x])[..|s|] == s;
  }

  // Dropping elements before or after sorting makes no difference.
  lemma {:induction false} SortCommutesWithFilter<T(!new)>(s: seq<T>, key: T -> real, p: T -> bool)
    ensures Sort(Filter(s, p), key) == Filter(Sort(s, key), p)
  {
    hide Insert;
    if s != [] {
      var init, last := s[..|s| - 1], s[|s| - 1];
      var f := Filter(init, p);
      SortCommutesWithFilter(init, key, p);
      SortSorts(init, key);
      InsertCommutes(Sort(init, key), last, key, p);
      SortAppend(f, last, key);
      assert f + [] == f;
      assert Filter(s, p) == if p(last) then f + [last] else f;
    }
  }

  // ---------- stability ----------

  // Elements of equal key stay in their order, whatever the key.
  ghost predicate SameOrderPerKey<T(!new)>(a: seq<T>, b: seq<T>, key: T -> real)
  {
    forall c: real :: OfKey(a, key, c) == OfKey(b, key, c)
  }

  function OfKey<T>(s: seq<T>, key: T -> real, c: real): seq<T>
  {
    Filter(s, x => key(x) == c)
  }

  lemma {:induction false} SortKeepsEqualKeys<T(!new)>(s: seq<T>, key: T -> real, c: real)
    requires forall x :: x in s ==> key(x) == c
    ensures Sort(s, key) == s
  {
    if s != [] {
      var init := s[..|s| - 1];
      SortKeepsEqualKeys(init, key, c);
      assert init + [s[|s| - 1]] == s;
    }
  }

  lemma SortIsStable<T(!new)>(s: seq<T>, key: T -> real)
    ensures SameOrderPerKey(Sort(s, key), s, key)
  {
    forall c ensures OfKey(Sort(s, key), key, c) == OfKey(s, key, c) {
      var p := x => key(x) == c;
      SortCommutesWithFilter(s, key, p);
      FilterIn(s, p);
      SortKeepsEqualKeys(Filter(s, p), key, c);
    }
  }

  // ---------- uniqueness ----------

  lemma OfKeyLast<T(!new)>(s: seq<T>, key: T -> real, c: real)
    requires s != []
    ensures OfKey(s, key, c) == OfKey(s[..|s| - 1], key, c) + (if key(s[|s| - 1]) == c then [s[|s| - 1]] else [])
  {
  }

  lemma LastKeyIsLargest<T(!new)>(a: seq<T>, b: seq<T>, key: T -> real)
    requires a != [] && SortedBy(b, key) && SameOrderPerKey(a, b, key)
    ensures b != [] && key(a[|a| - 1]) <= key(b[|b| - 1])
  {
    var x := a[|a| - 1];
    var p := y => key(y) == key(x);
    FilterIn(a, p);
    FilterIn(b, p);
    assert OfKey(a, key, key(x)) == OfKey(b, key, key(x));
    assert x in Filter(b, p);
  }

  // An ordered arrangement that keeps the order within each key is the only
  // one: it is what the sort returns.
  lemma {:induction false} StableSortIsUnique<T(!new)>(a: seq<T>, b: seq<T>, key: T -> real)
    requires SortedBy(a, key) && SortedBy(b, key) && SameOrderPerKey(a, b, key)
    ensures a == b
    decreases |a|
  {
    if a == [] {
      if b != [] {
        assert SameOrderPerKey(b, a, key);
        LastKeyIsLargest(b, a, key);
      }
    } else {
      LastKeyIsLargest(a, b, key);
      assert SameOrderPerKey(b, a, key);
      LastKeyIsLargest(b, a, key);
      var a', b' := a[..|a| - 1], b[..|b| - 1];
      var x, y := a[|a| - 1], b[|b| - 1];
      OfKeyLast(a, key, key(x));
      OfKeyLast(b, key, key(x));
      assert OfKey(a, key, key(x)) == OfKey(b, key, key(x));
      assert x == OfKey(a, key, key(x))[|OfKey(a, key, key(x))| - 1];
      assert y == OfKey(b, key, key(x))[|OfKey(b, key, key(x))| - 1];
      forall c ensures OfKey(a', key, c) == OfKey(b', key, c) {
        OfKeyLast(a, key, c);
        OfKeyLast(b, key, c);
        assert OfKey(a, key, c) == OfKey(b, key, c);
        DropSameLast(OfKey(a', key, c), OfKey(b', key, c), if key(x) == c then [x] else []);
      }
      StableSortIsUnique(a', b', key);
      assert a == a' + [x] && b == b' + [y];
    }
  }

  lemma DropSameLast<T>(a: seq<T>, b: seq<T>, t: seq<T>)
    requires a + t == b + t
    ensures a == b
  {
    assert |a| == |b|;
    assert a == (a + t)[..|a|] == (b + t)[..|a|] == b;
  }

  // ---------- sorted by one key, ordered by another ----------

  // The keys order the pair, x ahead of y, in the same way.
  predicate PairAgrees<T>(x: T, y: T, key: T -> real, other: T -> real)
  {
    if key(x) <= key(y) then other(x) <= other(y) else other(y) <= other(x)
  }

  ghost predicate PairsAgree<T(!new)>(s: seq<T>, key: T -> real, other: T -> real)
  {
    forall i, j :: 0 <= i < j < |s| ==> PairAgrees(s[i], s[j], key, other)
  }

  ghost predicate AllAgree<T(!new)>(s: seq<T>, x: T, key: T -> real, other: T -> real)
  {
    forall y :: y in s ==> PairAgrees(y, x, key, other)
  }

  ghost predicate AllAtMost<T(!new)>(s: seq<T>, bound: real, key: T -> real)
  {
    forall y :: y in s ==> key(y) <= bound
  }

  lemma AllAgreeLast<T(!new)>(s: seq<T>, last: T, x: T, key: T -> real, other: T -> real)
    ensures AllAgree(s + [last], x, key, other) <==> AllAgree(s, x, key, other) && PairAgrees(last, x, key, other)
  {
    hide PairAgrees;
    assert forall y :: y in s + [last] <==> y in s || y == last;
  }

  lemma AllAtMostInsert<T(!new)>(s: seq<T>, x: T, bound: real, key: T -> real, other: T -> real)
    ensures AllAtMost(Insert(s, x, key), bound, other) <==> AllAtMost(s, bound, other) && other(x) <= bound
  {
    hide Insert;
    InsertAdds(s, x, key);
    forall y ensures y in Insert(s, x, key) <==> y in s || y == x {
      assert y in multiset(Insert(s, x, key)) <==> y in multiset(s) + multiset{x};
    }
  }

  lemma PairsAgreeLast<T(!new)>(s: seq<T>, x: T, key: T -> real, other: T -> real)
    ensures PairsAgree(s + [x], key, other)
      <==> PairsAgree(s, key, other) && AllAgree(s, x, key, other)
  {
    hide PairAgrees;
    var t := s + [x];
    if PairsAgree(t, key, other) {
      forall y | y in s ensures PairAgrees(y, x, key, other) {
        var i :| 0 <= i < |s| && s[i] == y;
        assert PairAgrees(t[i], t[|s|], key, other);
      }
      forall i, j | 0 <= i < j < |s| ensures PairAgrees(s[i], s[j], key, other) {
        assert PairAgrees(t[i], t[j], key, other);
      }
    }
    if PairsAgree(s, key, other) && AllAgree(s, x, key, other) {
      forall i, j | 0 <= i < j < |t| ensures PairAgrees(t[i], t[j], key, other) {
        if j < |s| { assert PairAgrees(s[i], s[j], key, other); } else { assert s[i] in s; }
      }
    }
  }

  lemma SortedByLast<T(!new)>(s: seq<T>, x: T, key: T -> real)
    ensures SortedBy(s + [x], key) <==> SortedBy(s, key) && AllAtMost(s, key(x), key)
  {
    var t := s + [x];
    if SortedBy(t, key) {
      forall y | y in s ensures key(y) <= key(x) {
        var i :| 0 <= i < |s| && s[i] == y;
        assert key(t[i]) <= key(t[|s|]);
      }
      forall i, j | 0 <= i < j < |s| ensures key(s[i]) <= key(s[j]) {
        assert key(t[i]) <= key(t[j]);
      }
    }
    if SortedBy(s, key) && AllAtMost(s, key(x), key) {
      AppendLargest(s, x, key);
    }
  }

  lemma {:induction false} InsertOrderedIff<T(!new)>(s: seq<T>, x: T, key: T -> real, other: T -> real)
    requires SortedBy(s, key)
    ensures SortedBy(Insert(s, x, key), other) <==> SortedBy(s, other) && AllAgree(s, x, key, other)
  {
    if s == [] || key(s[|s| - 1]) <= key(x) {
      forall y | y in s ensures key(y) <= key(x) { LastIsLargest(s, key, y); }
      SortedByLast(s, x, other);
    } else {
      var init, last := s[..|s| - 1], s[|s| - 1];
      assert s == init + [last];
      assert SortedBy(init, key);
      hide SortedBy, AllAgree, AllAtMost;
      InsertOrderedIff(init, x, key, other);
      SortedByLast(init, last, other);
      SortedByLast(Insert(init, x, key), last, other);
      AllAtMostInsert(init, x, other(last), key, other);
      AllAgreeLast(init, last, x, key, other);
    }
  }

  // Sorting by one key gives the order of another exactly if the two keys
  // agree on every pair.
  lemma {:induction false} SortOrderedIff<T(!new)>(s: seq<T>, key: T -> real, other: T -> real)
    ensures SortedBy(Sort(s, key), other) <==> PairsAgree(s, key, other)
  {
    hide Insert, PairAgrees, SortedBy, PairsAgree, AllAgree;
    if s == [] {
      NothingToOrder(s, key, other);
    } else {
      var init, x := s[..|s| - 1], s[|s| - 1];
      assert s == init + [x];
      SortOrderedIff(init, key, other);
      SortSorts(init, key);
      InsertOrderedIff(Sort(init, key), x, key, other);
      PairsAgreeLast(init, x, key, other);
      SameElements(Sort(init, key), init, x, key, other);
    }
  }

  lemma NothingToOrder<T(!new)>(s: seq<T>, key: T -> real, other: T -> real)
    requires s == []
    ensures SortedBy(s, other) && PairsAgree(s, key, other)
  {
  }

  lemma SameElements<T(!new)>(s: seq<T>, t: seq<T>, x: T, key: T -> real, other: T -> real)
    requires multiset(s) == multiset(t)
    ensures AllAgree(s, x, key, other) <==> AllAgree(t, x, key, other)
  {
    hide PairAgrees;
    forall y ensures y in s <==> y in t {
      assert y in multiset(s) <==> y in multiset(t);
    }
  }

  // ---------- ranks ----------

  lemma SortLength<T(!new)>(s: seq<T>, key: T -> real)
    ensures |Sort(s, key)| == |s|
  {
    SortSorts(s, key);
    assert |multiset(Sort(s, key))| == |multiset(s)|;
  }

  function Itself(x: real): real { x }

  // The element at position m of the sorted values: at most m values are
  // smaller, and more than m are no larger.
  lemma RankOf(s: seq<real>, m: nat)
    requires m < |s|
    ensures |Sort(s, Itself)| == |s|
    ensures var v := Sort(s, Itself)[m];
      v in s && |Filter(s, x => x < v)| <= m < |Filter(s, x => x <= v)|
  {
    hide Sort, Filter;
    SortLength(s, Itself);
    SortSorts(s, Itself);
    var t := Sort(s, Itself);
    var v := t[m];
    assert v in multiset(t);
    RankInSorted(t, m);
    SortCommutesWithFilter(s, Itself, x => x < v);
    SortCommutesWithFilter(s, Itself, x => x <= v);
    SortLength(Filter(s, x => x < v), Itself);
    SortLength(Filter(s, x => x <= v), Itself);
  }

  lemma RankInSorted(t: seq<real>, m: nat)
    requires m < |t| && SortedBy(t, Itself)
    ensures |Filter(t, x => x < t[m])| <= m < |Filter(t, x => x <= t[m])|
  {
    var v := t[m];
    hide Filter;
    var below, upTo := (x: real) => x < v, (x: real) => x <= v;
    forall x | x in t[m..] ensures !below(x) {
      var i :| m <= i < |t| && t[i] == x;
      if i > m { assert Itself(t[m]) <= Itself(t[i]); }
    }
    forall x | x in t[..m + 1] ensures upTo(x) {
      var i :| 0 <= i <= m && t[i] == x;
      if i < m { assert Itself(t[i]) <= Itself(t[m]); }
    }
    assert t == t[..m] + t[m..] == t[..m + 1] + t[m + 1..];
    FilterConcat(t[..m], t[m..], below);
    FilterNone(t[m..], below);
    FilterShorter(t[..m], below);
    FilterConcat(t[..m + 1], t[m + 1..], upTo);
    FilterAll(t[..m + 1], upTo);
  }

  lemma {:induction false} FilterShorter<T>(s: seq<T>, p: T -> bool)
    ensures |Filter(s, p)| <= |s|
  {
    if s != [] { FilterShorter(s[..|s| - 1], p); }
  }
}
