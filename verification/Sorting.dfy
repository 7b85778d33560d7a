/**
 Stable sorting by a rank of two numbers and a name, compared in that order. Where ranks differ the
 result does not depend on the order sorted from.
 */
module Sorting {
  import opened Common

  datatype Rank = Rank(first: int, second: real, name: string)

  predicate NameLeq(a: string, b: string) {
    a == "" || (b != "" && (a[0] < b[0] || (a[0] == b[0] && NameLeq(a[1..], b[1..]))))
  }

  predicate Leq(a: Rank, b: Rank) {
    a.first < b.first ||
    (a.first == b.first && (a.second < b.second || (a.second == b.second && NameLeq(a.name, b.name))))
  }

  lemma {:induction false} NameTotal(a: string, b: string)
    ensures NameLeq(a, b) || NameLeq(b, a)
    ensures NameLeq(a, b) && NameLeq(b, a) ==> a == b
  {
    if a != "" && b != "" {
      NameTotal(a[1..], b[1..]);
      assert a == [a[0]] + a[1..] && b == [b[0]] + b[1..];
    }
  }

  lemma {:induction false} NameTransitive(a: string, b: string, c: string)
    requires NameLeq(a, b) && NameLeq(b, c)
    ensures NameLeq(a, c)
  {
    if a != "" && a[0] == b[0] == c[0] {
      NameTransitive(a[1..], b[1..], c[1..]);
    }
  }

  /** Ranks are totally ordered. */
  lemma LeqTotal(a: Rank, b: Rank)
    ensures Leq(a, b) || Leq(b, a)
    ensures Leq(a, b) && Leq(b, a) ==> a == b
  {
    NameTotal(a.name, b.name);
  }

  lemma LeqTransitive(a: Rank, b: Rank, c: Rank)
    requires Leq(a, b) && Leq(b, c)
    ensures Leq(a, c)
  {
    if a.first == b.first == c.first && a.second == b.second == c.second {
      NameTransitive(a.name, b.name, c.name);
    }
  }

  /** Before the first element that ranks no lower. */
  function Insert<T>(x: T, s: seq<T>, rank: T -> Rank): seq<T> {
    if s == [] then [x]
    else if Leq(rank(x), rank(s[0])) then [x] + s
    else [s[0]] + Insert(x, s[1..], rank)
  }

  function Sort<T>(s: seq<T>, rank: T -> Rank): seq<T> {
    if s == [] then [] else Insert(s[0], Sort(s[1..], rank), rank)
  }

  predicate IsSorted<T(!new)>(s: seq<T>, rank: T -> Rank) {
    |s| < 2 || (Leq(rank(s[0]), rank(s[1])) && IsSorted(s[1..], rank))
  }

  lemma {:induction false} InsertSorted<T(!new)>(x: T, s: seq<T>, rank: T -> Rank)
    requires IsSorted(s, rank)
    ensures IsSorted(Insert(x, s, rank), rank)
  {
    if s != [] {
      LeqTotal(rank(x), rank(s[0]));
      if Leq(rank(x), rank(s[0])) {
        assert ([x] + s)[1..] == s;
      } else {
        var rest := Insert(x, s[1..], rank);
        InsertSorted(x, s[1..], rank);
        assert ([s[0]] + rest)[1..] == rest;
        assert rest[0] == x || rest[0] == s[1];
      }
    }
  }

  lemma {:induction false} InsertMultiset<T>(x: T, s: seq<T>, rank: T -> Rank)
    ensures multiset(Insert(x, s, rank)) == multiset(s) + multiset{x}
  {
    if s != [] && !Leq(rank(x), rank(s[0])) {
      InsertMultiset(x, s[1..], rank);
      assert s == [s[0]] + s[1..];
    }
  }

  /** Sorting gives the same elements in order of rank. */
  lemma {:induction false} SortIsSortedPermutation<T(!new)>(s: seq<T>, rank: T -> Rank)
    ensures IsSorted(Sort(s, rank), rank) && multiset(Sort(s, rank)) == multiset(s)
  {
    if s != [] {
      var rest := Sort(s[1..], rank);
      SortIsSortedPermutation(s[1..], rank);
      InsertSorted(s[0], rest, rank);
      InsertMultiset(s[0], rest, rank);
      FrontMultiset(s);
    }
  }

  lemma {:induction false} InsertsCommute<T>(x: T, y: T, s: seq<T>, rank: T -> Rank)
    requires rank(x) != rank(y)
    ensures Insert(x, Insert(y, s, rank), rank) == Insert(y, Insert(x, s, rank), rank)
  {
    LeqTotal(rank(x), rank(y));
    if s == [] {
    } else {
      LeqTotal(rank(x), rank(s[0]));
      LeqTotal(rank(y), rank(s[0]));
      if Leq(rank(x), rank(s[0])) && Leq(rank(y), rank(s[0])) {
        HeadInserts(x, y, s, rank);
        HeadInserts(y, x, s, rank);
      } else if Leq(rank(x), rank(s[0])) {
        LeqTransitiveNot(rank(x), rank(s[0]), rank(y));
        OneHeadInsert(x, y, s, rank);
      } else if Leq(rank(y), rank(s[0])) {
        LeqTransitiveNot(rank(y), rank(s[0]), rank(x));
        OneHeadInsert(y, x, s, rank);
      } else {
        InsertsCommute(x, y, s[1..], rank);
        TailInserts(x, y, s, rank);
        TailInserts(y, x, s, rank);
      }
    }
  }

  lemma LeqTransitiveNot(a: Rank, b: Rank, c: Rank)
    requires Leq(a, b) && !Leq(c, b)
    ensures Leq(a, c) && !Leq(c, a)
  {
    LeqTotal(b, c);
    LeqTransitive(a, b, c);
    if Leq(c, a) { LeqTransitive(c, a, b); }
  }

  lemma HeadInserts<T>(x: T, y: T, s: seq<T>, rank: T -> Rank)
    requires s != [] && Leq(rank(x), rank(s[0])) && Leq(rank(y), rank(s[0])) && rank(x) != rank(y)
    ensures Insert(x, Insert(y, s, rank), rank) == if Leq(rank(x), rank(y)) then [x, y] + s else [y, x] + s
  {
    assert ([y] + s)[1..] == s;
    assert [x] + ([y] + s) == [x, y] + s;
    assert [y] + ([x] + s) == [y, x] + s;
  }

  lemma OneHeadInsert<T>(x: T, y: T, s: seq<T>, rank: T -> Rank)
    requires s != [] && Leq(rank(x), rank(s[0])) && !Leq(rank(y), rank(s[0])) && Leq(rank(x), rank(y))
    requires !Leq(rank(y), rank(x))
    ensures Insert(x, Insert(y, s, rank), rank) == Insert(y, Insert(x, s, rank), rank)
  {
    var rest := Insert(y, s[1..], rank);
    assert ([x] + s)[1..] == s;
    assert ([s[0]] + rest)[0] == s[0];
  }

  lemma TailInserts<T>(x: T, y: T, s: seq<T>, rank: T -> Rank)
    requires s != [] && !Leq(rank(x), rank(s[0])) && !Leq(rank(y), rank(s[0]))
    ensures Insert(x, Insert(y, s, rank), rank) == [s[0]] + Insert(x, Insert(y, s[1..], rank), rank)
  {
    var rest := Insert(y, s[1..], rank);
    assert ([s[0]] + rest)[1..] == rest;
  }

  /** The rank tells `x` from every other element. */
  ghost predicate RankTells<T(!new)>(x: T, s: seq<T>, rank: T -> Rank) {
    forall y :: y in s && rank(y) == rank(x) ==> y == x
  }

  /** The rank tells any two elements apart. */
  ghost predicate RankTellsAll<T(!new)>(s: seq<T>, rank: T -> Rank) {
    forall x, y :: x in s && y in s && rank(x) == rank(y) ==> x == y
  }

  /** Sorting with one element moved to the front. */
  lemma {:induction false} SortPullsOut<T(!new)>(before: seq<T>, x: T, after: seq<T>, rank: T -> Rank)
    requires RankTells(x, before, rank)
    ensures Sort(before + [x] + after, rank) == Insert(x, Sort(before + after, rank), rank)
  {
    if before == [] {
      assert before + [x] + after == [x] + after && before + after == after;
    } else {
      assert (before + [x] + after)[1..] == before[1..] + [x] + after;
      assert (before + after)[1..] == before[1..] + after;
      SortPullsOut(before[1..], x, after, rank);
      if before[0] != x {
        InsertsCommute(before[0], x, Sort(before[1..] + after, rank), rank);
      }
    }
  }

  lemma PullOut<T>(s: seq<T>, x: T) returns (before: seq<T>, after: seq<T>)
    requires x in s
    ensures s == before + [x] + after && multiset(s) == multiset(before + after) + multiset{x}
  {
    var k :| 0 <= k < |s| && s[k] == x;
    before, after := s[..k], s[k + 1..];
    assert s == before + [x] + after;
  }

  lemma MembersOf<T(!new)>(first: seq<T>, second: seq<T>)
    requires multiset(first) <= multiset(second)
    ensures forall x :: x in first ==> x in second
  {
    forall x | x in first ensures x in second {
      assert x in multiset(first);
    }
  }

  lemma FrontMultiset<T>(s: seq<T>)
    requires s != []
    ensures multiset(s) == multiset(s[1..]) + multiset{s[0]}
  {
    assert s == [s[0]] + s[1..];
  }

  lemma CancelOne<T>(a: multiset<T>, b: multiset<T>, x: T)
    requires a + multiset{x} == b + multiset{x}
    ensures a == b
  {
    assert a + multiset{x} - multiset{x} == a && b + multiset{x} - multiset{x} == b;
  }

  /** Sequences with the same elements, which the rank tells apart, sort to the same sequence. */
  lemma {:induction false} SortForgetsOrder<T(!new)>(first: seq<T>, second: seq<T>, rank: T -> Rank)
    requires multiset(first) == multiset(second) && RankTellsAll(first, rank)
    ensures Sort(first, rank) == Sort(second, rank)
  {
    if first == [] {
      assert |multiset(second)| == 0;
    } else {
      var x, rest := first[0], first[1..];
      FrontMultiset(first);
      assert x in multiset(second);
      var before, after := PullOut(second, x);
      CancelOne(multiset(rest), multiset(before + after), x);
      MembersOf(second, first);
      SortPullsOut(before, x, after, rank);
      SortForgetsOrder(rest, before + after, rank);
    }
  }
}
