/**
 * The stable in-place sort of JavaScript arrays (Array.prototype.sort with a
 * comparator), as an insertion sort over a total preorder `le` ("may come
 * before"). Stability is stated through a tie order: a relation that holds for
 * every earlier/later pair of the input is kept by every pair of elements that
 * the preorder cannot tell apart.
 */
module StableSort {

  ghost predicate TotalPreorder<T(!new)>(le: (T, T) -> bool)
  {
    && (forall a, b :: le(a, b) || le(b, a))
    && (forall a, b, c :: le(a, b) && le(b, c) ==> le(a, c))
  }

  ghost predicate SortedBy<T>(s: seq<T>, le: (T, T) -> bool)
  {
    forall i, j :: 0 <= i < j < |s| ==> le(s[i], s[j])
  }

  /** Every pair in input order satisfies `tie`. */
  ghost predicate Chained<T>(s: seq<T>, tie: (T, T) -> bool)
  {
    forall i, j :: 0 <= i < j < |s| ==> tie(s[i], s[j])
  }

  /** Elements that the preorder ranks alike keep the tie order. */
  ghost predicate TiesKept<T>(s: seq<T>, le: (T, T) -> bool, tie: (T, T) -> bool)
  {
    forall i, j :: 0 <= i < j < |s| && le(s[j], s[i]) ==> tie(s[i], s[j])
  }

  /** Inserts `x` before the first element that must come strictly after it. */
  function Insert<T>(sorted: seq<T>, x: T, le: (T, T) -> bool): seq<T>
  {
    if sorted == [] then [x]
    else if !le(sorted[0], x) then [x] + sorted
    else [sorted[0]] + Insert(sorted[1..], x, le)
  }

  lemma {:induction false} InsertPermutes<T>(sorted: seq<T>, x: T, le: (T, T) -> bool)
    ensures multiset(Insert(sorted, x, le)) == multiset(sorted) + multiset{x}
    ensures |Insert(sorted, x, le)| == |sorted| + 1
  {
    if sorted != [] && le(sorted[0], x) {
      InsertPermutes(sorted[1..], x, le);
      assert sorted == [sorted[0]] + sorted[1..];
    }
  }

  /**
   * Inserting an element that every present element may precede in the tie
   * order keeps the sequence sorted and keeps its ties.
   */
  lemma {:induction false} InsertSorted<T(!new)>(sorted: seq<T>, x: T, le: (T, T) -> bool, tie: (T, T) -> bool)
    requires TotalPreorder(le)
    requires SortedBy(sorted, le) && TiesKept(sorted, le, tie)
    requires forall y :: y in sorted ==> tie(y, x)
    ensures SortedBy(Insert(sorted, x, le), le)
    ensures TiesKept(Insert(sorted, x, le), le, tie)
  {
    var r := Insert(sorted, x, le);
    if sorted == [] {
    } else if !le(sorted[0], x) {
      assert r == [x] + sorted;
      forall j | 0 < j < |r| ensures le(x, r[j]) && !le(r[j], x) {
        assert r[j] == sorted[j - 1];
        assert le(sorted[0], sorted[j - 1]);
      }
    } else {
      var rest := Insert(sorted[1..], x, le);
      assert r == [sorted[0]] + rest;
      InsertSorted(sorted[1..], x, le, tie);
      InsertPermutes(sorted[1..], x, le);
      forall j | 0 < j < |r| ensures le(sorted[0], r[j]) && (le(r[j], sorted[0]) ==> tie(sorted[0], r[j])) {
        assert r[j] == rest[j - 1];
        assert rest[j - 1] in multiset(rest);
        if r[j] != x {
          assert r[j] in multiset(sorted[1..]);
          var k :| 0 <= k < |sorted[1..]| && sorted[1..][k] == r[j];
          assert sorted[k + 1] == r[j];
        }
      }
    }
  }

  /** The insertion sort as a value, folding `Insert` over the input from the left. */
  function Sorted<T>(s: seq<T>, le: (T, T) -> bool): seq<T>
  {
    if s == [] then [] else Insert(Sorted(s[..|s| - 1], le), s[|s| - 1], le)
  }

  lemma {:induction false} SortedCorrect<T(!new)>(s: seq<T>, le: (T, T) -> bool, tie: (T, T) -> bool)
    requires TotalPreorder(le)
    requires Chained(s, tie)
    ensures multiset(Sorted(s, le)) == multiset(s)
    ensures SortedBy(Sorted(s, le), le)
    ensures TiesKept(Sorted(s, le), le, tie)
  {
    if s != [] {
      var init, last := s[..|s| - 1], s[|s| - 1];
      assert s == init + [last];
      SortedCorrect(init, le, tie);
      InsertPermutes(Sorted(init, le), last, le);
      forall y | y in Sorted(init, le) ensures tie(y, last) {
        assert y in multiset(init);
        var k :| 0 <= k < |init| && init[k] == y;
      }
      InsertSorted(Sorted(init, le), last, le, tie);
    }
  }

  /**
   * Sorts a copy of `s`: the result is a permutation of `s`, ordered by `le`,
   * and elements that `le` ranks alike stay in input order (expressed through
   * any tie order the input already follows).
   */
  method Sort<T(!new)>(s: seq<T>, le: (T, T) -> bool, ghost tie: (T, T) -> bool) returns (r: seq<T>)
    requires TotalPreorder(le)
    requires Chained(s, tie)
    ensures r == Sorted(s, le)
    ensures multiset(r) == multiset(s) && |r| == |s|
    ensures SortedBy(r, le)
    ensures TiesKept(r, le, tie)
  {
    r := [];
    var i := 0;
    while i < |s|
      invariant 0 <= i <= |s|
      invariant r == Sorted(s[..i], le)
    {
      assert s[..i + 1][..i] == s[..i];
      r := Insert(r, s[i], le);
      i := i + 1;
    }
    assert s[..i] == s;
    SortedCorrect(s, le, tie);
    assert |multiset(r)| == |multiset(s)|;
  }
}
