/** Sorting with a comparison that answers like the runtime's: negative, zero or positive. The sort is
    stable - what compares equal keeps its order - as the runtime's is. */
module StableSort {
  import opened Common

  /** Insertion behind everything that does not come after it. */
  function Insert<T>(x: T, s: seq<T>, cmp: (T, T) -> int): seq<T> {
    if s == [] then [x]
    else if cmp(s[|s| - 1], x) <= 0 then s + [x]
    else Insert(x, s[..|s| - 1], cmp) + [s[|s| - 1]]
  }

  function Sorted<T>(s: seq<T>, cmp: (T, T) -> int): seq<T> {
    if s == [] then [] else Insert(s[|s| - 1], Sorted(s[..|s| - 1], cmp), cmp)
  }

  ghost predicate InOrder<T>(s: seq<T>, cmp: (T, T) -> int) {
    forall i, j :: 0 <= i < j < |s| ==> cmp(s[i], s[j]) <= 0
  }

  /** A comparison a sort may rely on: its answers mirror each other, and it is transitive - of what
      comes first, and of what is equal. */
  ghost predicate Comparison<T(!new)>(cmp: (T, T) -> int) {
    && (forall a, b :: cmp(a, b) < 0 <==> cmp(b, a) > 0)
    && (forall a, b, c :: cmp(a, b) <= 0 && cmp(b, c) <= 0 ==> cmp(a, c) <= 0)
    && (forall a, b, c :: cmp(a, b) < 0 && cmp(b, c) < 0 ==> cmp(a, c) < 0)
    && (forall a, b, c :: cmp(a, b) == 0 && cmp(b, c) == 0 ==> cmp(a, c) == 0)
  }

  lemma {:induction false} InsertContents<T>(x: T, s: seq<T>, cmp: (T, T) -> int)
    ensures multiset(Insert(x, s, cmp)) == multiset(s) + multiset{x}
  {
    if s != [] {
      assert s == s[..|s| - 1] + [s[|s| - 1]];
      InsertContents(x, s[..|s| - 1], cmp);
    }
  }

  lemma {:induction false} InsertBelow<T>(x: T, s: seq<T>, cmp: (T, T) -> int, high: T)
    requires cmp(x, high) <= 0 && forall y :: y in s ==> cmp(y, high) <= 0
    ensures forall y :: y in Insert(x, s, cmp) ==> cmp(y, high) <= 0
  {
    if s != [] {
      assert s[|s| - 1] in s;
      InsertBelow(x, s[..|s| - 1], cmp, high);
    }
  }

  lemma SnocInOrder<T>(s: seq<T>, x: T, cmp: (T, T) -> int)
    requires InOrder(s, cmp) && forall y :: y in s ==> cmp(y, x) <= 0
    ensures InOrder(s + [x], cmp)
  {
    assert forall i :: 0 <= i < |s| ==> s[i] in s;
  }

  lemma {:induction false} InsertInOrder<T(!new)>(x: T, s: seq<T>, cmp: (T, T) -> int)
    requires Comparison(cmp) && InOrder(s, cmp)
    ensures InOrder(Insert(x, s, cmp), cmp)
  {
    if s != [] {
      var front, last := s[..|s| - 1], s[|s| - 1];
      if cmp(last, x) > 0 {
        InsertInOrder(x, front, cmp);
        forall y | y in front ensures cmp(y, last) <= 0 {
          var k :| 0 <= k < |front| && front[k] == y;
          assert s[k] == y;
        }
        assert cmp(x, last) < 0;
        InsertBelow(x, front, cmp, last);
        SnocInOrder(Insert(x, front, cmp), last, cmp);
      } else {
        forall y | y in s ensures cmp(y, x) <= 0 {
          var k :| 0 <= k < |s| && s[k] == y;
          assert k < |s| - 1 ==> cmp(s[k], last) <= 0;
        }
        SnocInOrder(s, x, cmp);
      }
    }
  }

  lemma {:induction false} SortedContents<T>(s: seq<T>, cmp: (T, T) -> int)
    ensures multiset(Sorted(s, cmp)) == multiset(s)
  {
    if s != [] {
      hide Insert, Sorted;
      var front, last := s[..|s| - 1], s[|s| - 1];
      SortedContents(front, cmp);
      InsertContents(last, Sorted(front, cmp), cmp);
      LastApart(s);
      SortedStep(s, cmp);
    }
  }

  lemma SortedStep<T>(s: seq<T>, cmp: (T, T) -> int)
    requires s != []
    ensures Sorted(s, cmp) == Insert(s[|s| - 1], Sorted(s[..|s| - 1], cmp), cmp)
  {}

  lemma LastApart<T>(s: seq<T>)
    requires s != []
    ensures s == s[..|s| - 1] + [s[|s| - 1]]
    ensures multiset(s) == multiset(s[..|s| - 1]) + multiset{s[|s| - 1]}
  {
    assert s == s[..|s| - 1] + [s[|s| - 1]];
  }

  lemma {:induction false} SortedRuns<T(!new)>(s: seq<T>, cmp: (T, T) -> int)
    requires Comparison(cmp)
    ensures InOrder(Sorted(s, cmp), cmp)
  {
    if s != [] {
      hide Comparison, InOrder, Insert, Sorted;
      SortedRuns(s[..|s| - 1], cmp);
      InsertInOrder(s[|s| - 1], Sorted(s[..|s| - 1], cmp), cmp);
      SortedStep(s, cmp);
    }
  }

  /** A sorted sequence holds the same things, in order. */
  lemma SortedRight<T(!new)>(s: seq<T>, cmp: (T, T) -> int)
    requires Comparison(cmp)
    ensures InOrder(Sorted(s, cmp), cmp) && multiset(Sorted(s, cmp)) == multiset(s) && |Sorted(s, cmp)| == |s|
  {
    hide Comparison, InOrder, Sorted;
    SortedRuns(s, cmp);
    SortedContents(s, cmp);
    SameSize(Sorted(s, cmp), s);
  }

  lemma SameSize<T>(a: seq<T>, b: seq<T>)
    requires multiset(a) == multiset(b)
    ensures |a| == |b|
  {
    assert |multiset(a)| == |multiset(b)|;
  }

  /** What is already in order stays as it is. */
  lemma {:induction false} AlreadySorted<T>(s: seq<T>, cmp: (T, T) -> int)
    requires InOrder(s, cmp)
    ensures Sorted(s, cmp) == s
  {
    if s != [] {
      var front, last := s[..|s| - 1], s[|s| - 1];
      assert s == front + [last];
      AlreadySorted(front, cmp);
      if front != [] { assert cmp(s[|front| - 1], s[|front|]) <= 0; }
    }
  }

  lemma CancelOne<T>(a: multiset<T>, b: multiset<T>, x: T)
    requires a + multiset{x} == b + multiset{x}
    ensures a == b
  {
    forall y ensures a[y] == b[y] {
      assert (a + multiset{x})[y] == (b + multiset{x})[y];
    }
  }

  /** Equal contents, equal sums. */
  lemma {:induction false} SameContentsSameSum<T>(a: seq<T>, b: seq<T>, f: T -> int)
    requires multiset(a) == multiset(b)
    ensures SumBy(a, f) == SumBy(b, f)
  {
    if a == [] {
      assert |multiset(b)| == |b|;
    } else {
      var front, last := a[..|a| - 1], a[|a| - 1];
      LastApart(a);
      assert last in multiset(b);
      var i :| 0 <= i < |b| && b[i] == last;
      var rest := b[..i] + b[i + 1..];
      assert b == b[..i] + ([last] + b[i + 1..]);
      assert multiset(b) == multiset(b[..i]) + multiset{last} + multiset(b[i + 1..]);
      CancelOne(multiset(front), multiset(rest), last);
      SameContentsSameSum(front, rest, f);
      SumByConcat(b[..i], [last] + b[i + 1..], f);
      SumByConcat(b[..i], b[i + 1..], f);
      SumByHead([last] + b[i + 1..], f);
    }
  }
}
