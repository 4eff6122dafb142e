/** Bounded windows over a growing history: what a deque with a maximal length
    holds. */
module Windows {

  // The last k elements, or all of them if there are fewer.
  function Last<T>(s: seq<T>, k: nat): seq<T> { if |s| > k then s[|s| - k..] else s }

  // Appending to a full window drops its oldest element.
  function Push<T>(window: seq<T>, x: T, k: nat): seq<T> { Last(window + [x], k) }

  // The window over a longer history is the old window with the new element
  // pushed.
  lemma PushIsLast<T>(s: seq<T>, x: T, k: nat)
    ensures Push(Last(s, k), x, k) == Last(s + [x], k)
  {
  }

  lemma LastOfLast<T>(s: seq<T>, j: nat, k: nat)
    requires j <= k
    ensures Last(Last(s, k), j) == Last(s, j)
  {
  }

  // Counted from the end, a window and its history agree.
  lemma LastFromEnd<T>(s: seq<T>, k: nat, i: nat)
    requires 1 <= i <= |s| && i <= k
    ensures i <= |Last(s, k)| && Last(s, k)[|Last(s, k)| - i] == s[|s| - i]
  {
  }

  // Replacing the newest element commutes with taking the window.
  lemma LastOfReplace<T>(s: seq<T>, x: T, k: nat)
    requires s != [] && k > 0
    ensures Last(s, k) != [] && Last(s, k)[..|Last(s, k)| - 1] + [x] == Last(s[..|s| - 1] + [x], k)
  {
  }
}
