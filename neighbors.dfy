/**
 * Historical samples and neighbour ranking, shared by both predictors
 * (`t_previous_result` and the sort/resize of `neighbors` in
 * ppredict/ppredict.cpp and predict/predict.cpp).
 *
 * `std::sort` with the comparator `i.second < j.second` is not stable, so the
 * order it leaves among neighbours of equal distance is unspecified. The model
 * sorts with a stable insertion sort: one of the orders `std::sort` may
 * produce. What the predictors rely on (sorted, a permutation, the retained
 * prefix is no farther than the dropped suffix) is proved of it.
 */
module Neighbors {

  /**
   * One past observation. The four coordinates are read as given reals (in
   * predict/predict.cpp they hold logarithms).
   */
  datatype Sample = Sample(m: real, n: real, gridSize: real, blockSize: real, price: real)

  /** The coordinate vector the predictors build with four `push_back`s. */
  function Features(s: Sample): (v: seq<real>)
    ensures |v| == 4
  {
    [s.m, s.n, s.gridSize, s.blockSize]
  }

  /**
   * The query vector both predictors push: `m`, `n`, grid size, block size,
   * the order of `Features`.
   */
  function Query(gridSize: real, blockSize: real, m: real, n: real): (x: seq<real>)
    ensures |x| == 4
  {
    [m, n, gridSize, blockSize]
  }

  /** A sample paired with its distance to the query. */
  datatype Neighbor = Neighbor(sample: Sample, dist: real)

  predicate Sorted(s: seq<Neighbor>)
  {
    forall i, j :: 0 <= i < j < |s| ==> s[i].dist <= s[j].dist
  }

  /**
   * Insert `e` into `s`, after every element at most as far as `e`, scanning
   * from the back as the in-place sort does.
   */
  function Insert(e: Neighbor, s: seq<Neighbor>): seq<Neighbor>
  {
    if s == [] || s[|s| - 1].dist <= e.dist then s + [e]
    else Insert(e, s[..|s| - 1]) + [s[|s| - 1]]
  }

  /** Stable insertion sort by ascending distance. */
  function SortedByDist(s: seq<Neighbor>): seq<Neighbor>
  {
    if s == [] then [] else Insert(s[|s| - 1], SortedByDist(s[..|s| - 1]))
  }

  lemma {:induction false} InsertPermutes(e: Neighbor, s: seq<Neighbor>)
    ensures multiset(Insert(e, s)) == multiset(s) + multiset{e}
  {
    if s != [] && s[|s| - 1].dist > e.dist {
      var init := s[..|s| - 1];
      InsertPermutes(e, init);
      assert s == init + [s[|s| - 1]];
    }
  }

  lemma {:induction false} InsertBounded(e: Neighbor, s: seq<Neighbor>, bound: real)
    requires e.dist <= bound
    requires forall i :: 0 <= i < |s| ==> s[i].dist <= bound
    ensures forall i :: 0 <= i < |Insert(e, s)| ==> Insert(e, s)[i].dist <= bound
  {
    if s != [] && s[|s| - 1].dist > e.dist {
      InsertBounded(e, s[..|s| - 1], bound);
    }
  }

  lemma {:induction false} InsertSorted(e: Neighbor, s: seq<Neighbor>)
    requires Sorted(s)
    ensures Sorted(Insert(e, s))
  {
    if s != [] && s[|s| - 1].dist > e.dist {
      var init, last := s[..|s| - 1], s[|s| - 1];
      InsertSorted(e, init);
      InsertBounded(e, init, last.dist);
    }
  }

  /** The sort keeps exactly the neighbours it is given. */
  lemma {:induction false} SortPermutes(s: seq<Neighbor>)
    ensures multiset(SortedByDist(s)) == multiset(s)
  {
    if s != [] {
      var init := s[..|s| - 1];
      SortPermutes(init);
      InsertPermutes(s[|s| - 1], SortedByDist(init));
      assert s == init + [s[|s| - 1]];
    }
  }

  /** The sort orders by ascending distance. */
  lemma {:induction false} SortSorts(s: seq<Neighbor>)
    ensures Sorted(SortedByDist(s))
  {
    if s != [] {
      SortSorts(s[..|s| - 1]);
      InsertSorted(s[|s| - 1], SortedByDist(s[..|s| - 1]));
    }
  }

  lemma {:induction false} SortLength(s: seq<Neighbor>)
    ensures |SortedByDist(s)| == |s|
  {
    SortPermutes(s);
    assert |multiset(SortedByDist(s))| == |multiset(s)|;
  }

  /**
   * Keeping the first `k` sorted neighbours (`resize`): the kept list has
   * length `k` and is sorted, kept and dropped together are the input, and no
   * dropped neighbour is closer than a kept one.
   */
  lemma {:induction false} Truncation(s: seq<Neighbor>, k: nat)
    requires k <= |s|
    ensures var t := SortedByDist(s);
      && |t| == |s|
      && |t[..k]| == k
      && Sorted(t[..k])
      && multiset(t[..k]) + multiset(t[k..]) == multiset(s)
      && forall i, j :: 0 <= i < k <= j < |t| ==> t[i].dist <= t[j].dist
  {
    var t := SortedByDist(s);
    SortLength(s);
    SortSorts(s);
    SortPermutes(s);
    assert t == t[..k] + t[k..];
  }

  /** Every element of the sorted list is one of the input's elements. */
  lemma {:induction false} SortedMembers(s: seq<Neighbor>)
    ensures forall i :: 0 <= i < |SortedByDist(s)| ==> SortedByDist(s)[i] in s
  {
    SortPermutes(s);
    forall i | 0 <= i < |SortedByDist(s)|
      ensures SortedByDist(s)[i] in s
    {
      assert SortedByDist(s)[i] in multiset(SortedByDist(s));
    }
  }

  /**
   * `std::sort` on the vector of neighbours, as an in-place insertion sort:
   * the array ends up holding `SortedByDist` of what it held.
   */
  method SortByDistance(a: array<Neighbor>)
    modifies a
    ensures a[..] == SortedByDist(old(a[..]))
  {
    ghost var input := a[..];
    var i := 0;
    while i < a.Length
      invariant 0 <= i <= a.Length
      invariant a[..i] == SortedByDist(input[..i])
      invariant forall k :: i <= k < a.Length ==> a[k] == input[k]
    {
      assert input[..i + 1][..i] == input[..i];
      InsertInPlace(a, i);
      i := i + 1;
    }
    assert input[..a.Length] == input;
  }

  /** Moves `a[i]` left past every greater element of `a[..i]`. */
  method InsertInPlace(a: array<Neighbor>, i: nat)
    requires i < a.Length
    modifies a
    ensures a[..i + 1] == Insert(old(a[i]), old(a[..i]))
    ensures forall k :: i < k < a.Length ==> a[k] == old(a[k])
  {
    var key := a[i];
    ghost var done := a[..i];
    var j := i;
    while j > 0 && a[j - 1].dist > key.dist
      invariant 0 <= j <= i
      invariant forall k :: 0 <= k < j ==> a[k] == done[k]
      invariant forall k :: j < k <= i ==> a[k] == done[k - 1]
      invariant forall k :: i < k < a.Length ==> a[k] == old(a[k])
      invariant forall k :: j <= k < i ==> done[k].dist > key.dist
    {
      a[j] := a[j - 1];
      j := j - 1;
    }
    InsertAfter(key, done, j);
    ghost var placed := done[..j] + [key] + done[j..];
    a[j] := key;
    assert forall k :: 0 <= k <= i ==> a[k] == placed[k];
    assert a[..i + 1] == placed;
  }

  /**
   * When everything from position `j` on is farther than `key` and the
   * element before `j` is not, `key` is inserted at `j`.
   */
  lemma {:induction false} InsertAfter(key: Neighbor, done: seq<Neighbor>, j: nat)
    requires j <= |done| && (j == 0 || done[j - 1].dist <= key.dist)
    requires forall k :: j <= k < |done| ==> done[k].dist > key.dist
    ensures Insert(key, done) == done[..j] + [key] + done[j..]
    decreases |done|
  {
    if |done| > j {
      var init := done[..|done| - 1];
      assert forall k :: 0 <= k < |init| ==> init[k] == done[k];
      InsertAfter(key, init, j);
      assert init[..j] == done[..j];
      assert done[j..] == init[j..] + [done[|done| - 1]];
    } else {
      assert done[..j] == done && done[j..] == [];
    }
  }
}
