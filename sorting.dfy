/** In-place sorting by a numeric key, the role `Array.prototype.sort` with a
    comparator `(a, b) => key(a) - key(b)` plays in the compare-jobs ranking and on
    the reminders page. */
module Sorting {

  /** `s` is in ascending order of `key`. */
  ghost predicate SortedBy<T>(s: seq<T>, key: T -> real) {
    forall i, j :: 0 <= i < j < |s| ==> key(s[i]) <= key(s[j])
  }

  /** `s[..hi + 1]` is in order except that the element at `j` may be out of place
      with respect to the ones before it. */
  ghost predicate SortedExcept<T>(s: seq<T>, key: T -> real, hi: int, j: int)
    requires hi < |s|
  {
    forall p, q :: 0 <= p < q <= hi && q != j ==> key(s[p]) <= key(s[q])
  }

  /** Swapping an out-of-place element with its larger left neighbour moves the gap
      one place to the left. */
  lemma SwapStep<T>(s: seq<T>, key: T -> real, hi: int, j: int)
    requires 0 < j <= hi < |s| && SortedExcept(s, key, hi, j)
    requires key(s[j - 1]) > key(s[j])
    ensures SortedExcept(s[j - 1 := s[j]][j := s[j - 1]], key, hi, j - 1)
  {
  }

  method Swap<T>(a: array<T>, k: int)
    requires 0 < k < a.Length
    modifies a
    ensures a[..] == old(a[..])[k - 1 := old(a[k])][k := old(a[k - 1])]
    ensures multiset(a[..]) == old(multiset(a[..]))
  {
    a[k - 1], a[k] := a[k], a[k - 1];
  }

  /** Moves `a[i]` left past every larger element, extending the sorted prefix by one. */
  method InsertAt<T>(a: array<T>, i: int, key: T -> real)
    requires 0 <= i < a.Length && SortedBy(a[..i], key)
    modifies a
    ensures SortedBy(a[..i + 1], key)
    ensures multiset(a[..]) == old(multiset(a[..]))
  {
    var j := i;
    while j > 0 && key(a[j - 1]) > key(a[j])
      invariant 0 <= j <= i
      invariant multiset(a[..]) == old(multiset(a[..]))
      invariant SortedExcept(a[..], key, i, j)
    {
      SwapStep(a[..], key, i, j);
      Swap(a, j);
      j := j - 1;
    }
  }

  /** Sorts `a` by ascending `key`. Equal keys never swap, so equal elements keep their
      relative order as they do under JavaScript's stable sort. */
  method SortBy<T>(a: array<T>, key: T -> real)
    modifies a
    ensures SortedBy(a[..], key)
    ensures multiset(a[..]) == old(multiset(a[..]))
  {
    var i := 0;
    while i < a.Length
      invariant 0 <= i <= a.Length
      invariant SortedBy(a[..i], key)
      invariant multiset(a[..]) == old(multiset(a[..]))
    {
      InsertAt(a, i, key);
      i := i + 1;
    }
    assert a[..a.Length] == a[..];
  }
}
