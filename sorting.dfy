/**
 * Go's string order and the in-place sort the handler calls (`sort.SliceStable`).
 * The sort is modelled by insertion sort, the algorithm `sort.SliceStable` runs on
 * slices of up to twenty elements, driven by the caller's `less` exactly as Go drives
 * it: an element moves left while `less(a[j], a[j-1])` holds.
 */
module Sorting {

  /**
   * Go's `<=` on strings: byte-wise lexicographic order. On UTF-8 encoded text the
   * byte order and the code point order of the characters agree.
   */
  predicate LexLessEq(a: string, b: string)
  {
    if a == [] then true
    else if b == [] then false
    else if a[0] != b[0] then a[0] < b[0]
    else LexLessEq(a[1..], b[1..])
  }

  /** Any two strings are comparable. */
  lemma {:induction false} LexTotal(a: string, b: string)
    ensures LexLessEq(a, b) || LexLessEq(b, a)
  {
    if a != [] && b != [] && a[0] == b[0] {
      LexTotal(a[1..], b[1..]);
    }
  }

  /** The order is transitive. */
  lemma {:induction false} LexTransitive(a: string, b: string, c: string)
    requires LexLessEq(a, b) && LexLessEq(b, c)
    ensures LexLessEq(a, c)
  {
    if a != [] && b != [] && c != [] && a[0] == b[0] && b[0] == c[0] {
      LexTransitive(a[1..], b[1..], c[1..]);
    }
  }

  /** Equal strings are related both ways: a comparator built on it says "less" on ties. */
  lemma {:induction false} LexReflexive(a: string)
    ensures LexLessEq(a, a)
  {
    if a != [] {
      LexReflexive(a[1..]);
    }
  }

  ghost predicate Total<T(!new)>(less: (T, T) -> bool)
  {
    forall x, y :: less(x, y) || less(y, x)
  }

  ghost predicate Transitive<T(!new)>(less: (T, T) -> bool)
  {
    forall x, y, z :: less(x, y) && less(y, z) ==> less(x, z)
  }

  /** Every earlier element is related by `less` to every later one. */
  ghost predicate SortedBy<T>(s: seq<T>, less: (T, T) -> bool)
  {
    forall p, q :: 0 <= p < q < |s| ==> less(s[p], s[q])
  }

  /**
   * Sorts `a` in place. With a comparator that is total and transitive (a total
   * preorder, such as a "<=" that is true on ties) the result is ordered by it and is
   * a permutation of the input; which of several tied elements comes first is left open.
   */
  method SortSliceStable<T(!new)>(a: array<T>, less: (T, T) -> bool)
    requires Total(less) && Transitive(less)
    modifies a
    ensures SortedBy(a[..], less)
    ensures multiset(a[..]) == old(multiset(a[..]))
  {
    var i := 0;
    while i < a.Length
      invariant 0 <= i <= a.Length
      invariant SortedBy(a[..i], less)
      invariant multiset(a[..]) == old(multiset(a[..]))
    {
      var j := i;
      while j > 0 && less(a[j], a[j - 1])
        invariant 0 <= j <= i
        invariant forall p, q :: 0 <= p < q <= i && p != j && q != j ==> less(a[p], a[q])
        invariant forall q :: j < q <= i ==> less(a[j], a[q])
        invariant multiset(a[..]) == old(multiset(a[..]))
      {
        a[j - 1], a[j] := a[j], a[j - 1];
        j := j - 1;
      }
      if j > 0 {
        assert less(a[j - 1], a[j]);
      }
      i := i + 1;
    }
  }
}
