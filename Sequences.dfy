/** Sequence searches and selections shared by several screens: Swift's
    `firstIndex(where:)` with its `?? 0` fallback, used by the page view and
    the tab pager, and order-preserving selection, the property of the
    catalogue filters of the two shop screens. */
module Sequences {

  /** `firstIndex { $0 == x } ?? 0`. */
  function FirstIndex<T(==)>(s: seq<T>, x: T): (i: nat)
    ensures x in s ==> i < |s| && s[i] == x
    ensures x in s ==> forall j :: 0 <= j < i ==> s[j] != x
    ensures x !in s ==> i == 0
    decreases |s|
  {
    if s == [] then 0
    else if s[0] == x then 0
    else if x in s[1..] then 1 + FirstIndex(s[1..], x)
    else 0
  }

  /** `a` is `b` with some elements left out, the rest kept in order. */
  predicate IsSubsequence<T(==)>(a: seq<T>, b: seq<T>)
    decreases |b|
  {
    if a == [] then true
    else if b == [] then false
    else if a[0] == b[0] then IsSubsequence(a[1..], b[1..])
    else IsSubsequence(a, b[1..])
  }
}
