/** The descending sort a MongoDB cursor applies for `sort({ a: -1, b: -1 })`:
    records are ranked by a pair of integer keys, largest first. Records of
    equal rank keep their stored order (the database leaves that order open;
    the model fixes one). */
module Sorting {

  /** A sort key: compared on `major` first, then on `minor`. */
  datatype Rank = Rank(major: int, minor: int)

  /** `a` may come before `b` in a descending listing. */
  predicate NotBelow(a: Rank, b: Rank) {
    a.major > b.major || (a.major == b.major && a.minor >= b.minor)
  }

  predicate SortedDesc<T>(s: seq<T>, rank: T -> Rank) {
    forall i, j :: 0 <= i < j < |s| ==> NotBelow(rank(s[i]), rank(s[j]))
  }

  /** Places `x` before the first element it is strictly above. */
  function Insert<T(==)>(x: T, s: seq<T>, rank: T -> Rank): (r: seq<T>)
    requires SortedDesc(s, rank)
    ensures SortedDesc(r, rank)
    ensures multiset(r) == multiset(s) + multiset{x}
    ensures |r| == |s| + 1
    ensures forall y :: y in r ==> y == x || y in s
  {
    if |s| == 0 then [x]
    else if NotBelow(rank(x), rank(s[0])) && !NotBelow(rank(s[0]), rank(x)) then [x] + s
    else
      var tail := Insert(x, s[1..], rank);
      assert s == [s[0]] + s[1..];
      assert forall y :: y in tail ==> NotBelow(rank(s[0]), rank(y)) by {
        forall y | y in tail ensures NotBelow(rank(s[0]), rank(y)) {
          if y != x {
            var j :| 1 <= j < |s| && s[j] == y;
          }
        }
      }
      [s[0]] + tail
  }

  /** Insertion sort: a descending rearrangement of `s`. */
  function SortDesc<T(==)>(s: seq<T>, rank: T -> Rank): (r: seq<T>)
    ensures SortedDesc(r, rank)
    ensures multiset(r) == multiset(s)
    ensures |r| == |s|
  {
    if |s| == 0 then []
    else
      var front := SortDesc(s[..|s| - 1], rank);
      assert s == s[..|s| - 1] + [s[|s| - 1]];
      assert multiset(s) == multiset(s[..|s| - 1]) + multiset{s[|s| - 1]};
      Insert(s[|s| - 1], front, rank)
  }

  /** Membership is preserved by sorting. */
  lemma SortedMembers<T>(s: seq<T>, rank: T -> Rank, x: T)
    ensures x in SortDesc(s, rank) <==> x in s
  {
    var r := SortDesc(s, rank);
    assert x in r <==> x in multiset(r);
    assert x in s <==> x in multiset(s);
  }

  /** When no two elements share a rank, the descending order is determined:
      any two sorted rearrangements of the same elements are equal. */
  lemma {:induction false} SortedUnique<T>(a: seq<T>, b: seq<T>, rank: T -> Rank)
    requires SortedDesc(a, rank) && SortedDesc(b, rank)
    requires multiset(a) == multiset(b)
    requires forall i, j :: 0 <= i < j < |a| ==> rank(a[i]) != rank(a[j])
    ensures a == b
  {
    assert |a| == |multiset(a)| == |multiset(b)| == |b|;
    if |a| > 0 {
      HeadsAgree(a, b, rank);
      MultisetOfTail(a);
      MultisetOfTail(b);
      TailKeepsOrder(a, rank);
      TailKeepsOrder(b, rank);
      SortedUnique(a[1..], b[1..], rank);
      SameHeadAndTail(a, b);
    }
  }

  lemma SameHeadAndTail<T>(a: seq<T>, b: seq<T>)
    requires |a| > 0 && |b| > 0 && a[0] == b[0] && a[1..] == b[1..]
    ensures a == b
  {
    assert a == [a[0]] + a[1..];
    assert b == [b[0]] + b[1..];
  }

  lemma TailKeepsOrder<T>(a: seq<T>, rank: T -> Rank)
    requires |a| > 0 && SortedDesc(a, rank)
    ensures SortedDesc(a[1..], rank)
    ensures (forall i, j :: 0 <= i < j < |a| ==> rank(a[i]) != rank(a[j])) ==>
      forall i, j :: 0 <= i < j < |a[1..]| ==> rank(a[1..][i]) != rank(a[1..][j])
  {
    assert forall i :: 0 <= i < |a[1..]| ==> a[1..][i] == a[i + 1];
  }

  lemma HeadsAgree<T>(a: seq<T>, b: seq<T>, rank: T -> Rank)
    requires |a| > 0 && |b| > 0
    requires SortedDesc(a, rank) && SortedDesc(b, rank)
    requires multiset(a) == multiset(b)
    requires forall i, j :: 0 <= i < j < |a| ==> rank(a[i]) != rank(a[j])
    ensures a[0] == b[0]
  {
    assert a[0] in multiset(b);
    assert b[0] in multiset(a);
    var i :| 0 <= i < |b| && b[i] == a[0];
    var j :| 0 <= j < |a| && a[j] == b[0];
    assert NotBelow(rank(a[0]), rank(a[j]));
    assert NotBelow(rank(b[0]), rank(b[i]));
    assert rank(a[0]) == rank(a[j]);
    assert j == 0;
  }

  lemma MultisetOfTail<T>(a: seq<T>)
    requires |a| > 0
    ensures multiset(a[1..]) == multiset(a) - multiset{a[0]}
  {
    assert a == [a[0]] + a[1..];
  }
}
