/** Go's sort.SliceStable and sort.Slice over values. */
module Sorting {
  import opened Prelude

  // le(a, b): a may stand before b.
  ghost predicate TotalPreorder<T(!new)>(le: (T, T) -> bool) {
    && (forall a, b :: le(a, b) || le(b, a))
    && (forall a, b, c :: le(a, b) && le(b, c) ==> le(a, c))
  }

  ghost predicate Sorted<T(!new)>(s: seq<T>, le: (T, T) -> bool) {
    forall i, j :: 0 <= i < j < |s| ==> le(s[i], s[j])
  }

  // On a tie the element of p goes first.
  function Merge<T>(p: seq<T>, q: seq<T>, le: (T, T) -> bool): seq<T>
    decreases |p| + |q|
  {
    if p == [] then q
    else if q == [] then p
    else if le(p[0], q[0]) then [p[0]] + Merge(p[1..], q, le)
    else [q[0]] + Merge(p, q[1..], le)
  }

  // sort.SliceStable
  function StableSort<T>(s: seq<T>, le: (T, T) -> bool): seq<T> {
    if s == [] then [] else Merge(StableSort(s[..|s| - 1], le), [s[|s| - 1]], le)
  }

  lemma {:induction false} MergeAssociative<T(!new)>(p: seq<T>, q: seq<T>, r: seq<T>, le: (T, T) -> bool)
    requires TotalPreorder(le)
    ensures Merge(Merge(p, q, le), r, le) == Merge(p, Merge(q, r, le), le)
    decreases |p| + |q| + |r|
  {
    if p != [] && q != [] && r != [] {
      var pq, qr := Merge(p, q, le), Merge(q, r, le);
      if le(p[0], q[0]) && le(p[0], r[0]) {
        MergeAssociative(p[1..], q, r, le);
        assert pq[1..] == Merge(p[1..], q, le);
      } else if !le(p[0], q[0]) && le(q[0], r[0]) {
        MergeAssociative(p, q[1..], r, le);
        assert pq[1..] == Merge(p, q[1..], le) && qr[1..] == Merge(q[1..], r, le);
      } else {
        MergeAssociative(p, q, r[1..], le);
        assert qr[1..] == Merge(q, r[1..], le);
      }
    }
  }

  lemma MergeEmpty<T>(p: seq<T>, le: (T, T) -> bool)
    ensures Merge(p, [], le) == p
  {
  }

  // Sorting two parts and merging them sorts the whole.
  lemma {:induction false} SortOfParts<T(!new)>(a: seq<T>, b: seq<T>, le: (T, T) -> bool)
    requires TotalPreorder(le)
    ensures StableSort(a + b, le) == Merge(StableSort(a, le), StableSort(b, le), le)
    decreases |b|
  {
    if b == [] {
      assert a + b == a;
      MergeEmpty(StableSort(a, le), le);
    } else {
      var n := |b| - 1;
      assert (a + b)[..|a + b| - 1] == a + b[..n];
      SortOfParts(a, b[..n], le);
      MergeAssociative(StableSort(a, le), StableSort(b[..n], le), [b[n]], le);
    }
  }

  // ---------- what the sort promises ----------

  lemma FrontCounts<T(!new)>(s: seq<T>)
    requires s != []
    ensures multiset(s) == multiset{s[0]} + multiset(s[1..])
  {
    assert s == [s[0]] + s[1..];
  }

  lemma {:induction false} MergeKeeps<T(!new)>(p: seq<T>, q: seq<T>, le: (T, T) -> bool)
    ensures multiset(Merge(p, q, le)) == multiset(p) + multiset(q)
    ensures |Merge(p, q, le)| == |p| + |q|
    decreases |p| + |q|
  {
    if p == [] {
      assert multiset(p) == multiset{};
    } else if q == [] {
      assert multiset(q) == multiset{};
    } else if le(p[0], q[0]) {
      MergeKeeps(p[1..], q, le);
      FrontCounts(p);
      assert Merge(p, q, le)[1..] == Merge(p[1..], q, le);
      FrontCounts(Merge(p, q, le));
    } else {
      MergeKeeps(p, q[1..], le);
      FrontCounts(q);
      assert Merge(p, q, le)[1..] == Merge(p, q[1..], le);
      FrontCounts(Merge(p, q, le));
    }
  }

  lemma SortedFront<T(!new)>(x: T, s: seq<T>, le: (T, T) -> bool)
    requires Sorted(s, le) && forall y :: y in s ==> le(x, y)
    ensures Sorted([x] + s, le)
  {
  }

  lemma {:induction false} MergeSorts<T(!new)>(p: seq<T>, q: seq<T>, le: (T, T) -> bool)
    requires TotalPreorder(le) && Sorted(p, le) && Sorted(q, le)
    ensures Sorted(Merge(p, q, le), le)
    decreases |p| + |q|
  {
    if p != [] && q != [] {
      if le(p[0], q[0]) {
        MergeSorts(p[1..], q, le);
        MergeKeeps(p[1..], q, le);
        forall y | y in Merge(p[1..], q, le)
          ensures le(p[0], y)
        {
          assert y in multiset(Merge(p[1..], q, le));
          assert y in p[1..] || y in q;
        }
        SortedFront(p[0], Merge(p[1..], q, le), le);
      } else {
        MergeSorts(p, q[1..], le);
        MergeKeeps(p, q[1..], le);
        forall y | y in Merge(p, q[1..], le)
          ensures le(q[0], y)
        {
          assert y in multiset(Merge(p, q[1..], le));
          assert y in p || y in q[1..];
        }
        SortedFront(q[0], Merge(p, q[1..], le), le);
      }
    }
  }

  lemma {:induction false} SortSorts<T(!new)>(s: seq<T>, le: (T, T) -> bool)
    requires TotalPreorder(le)
    ensures Sorted(StableSort(s, le), le) && multiset(StableSort(s, le)) == multiset(s) && |StableSort(s, le)| == |s|
  {
    if s != [] {
      var n := |s| - 1;
      SortSorts(s[..n], le);
      MergeSorts(StableSort(s[..n], le), [s[n]], le);
      MergeKeeps(StableSort(s[..n], le), [s[n]], le);
      assert s == s[..n] + [s[n]];
    }
  }

  lemma {:induction false} MergeInOrder<T(!new)>(p: seq<T>, q: seq<T>, le: (T, T) -> bool)
    requires forall x, y :: x in p && y in q ==> le(x, y)
    ensures Merge(p, q, le) == p + q
    decreases |p|
  {
    if p != [] && q != [] {
      MergeInOrder(p[1..], q, le);
    }
  }

  lemma {:induction false} SortedStays<T(!new)>(s: seq<T>, le: (T, T) -> bool)
    requires Sorted(s, le)
    ensures StableSort(s, le) == s
  {
    if s != [] {
      var n := |s| - 1;
      SortedStays(s[..n], le);
      MergeInOrder(s[..n], [s[n]], le);
    }
  }

  // The elements that tie with x, in order.
  function Ties<T>(s: seq<T>, x: T, le: (T, T) -> bool): seq<T> {
    if s == [] then [] else Ties(s[..|s| - 1], x, le) + (if Tie(s[|s| - 1], x, le) then [s[|s| - 1]] else [])
  }

  predicate Tie<T>(a: T, b: T, le: (T, T) -> bool) {
    le(a, b) && le(b, a)
  }

  lemma {:induction false} TiesAppend<T>(a: seq<T>, b: seq<T>, x: T, le: (T, T) -> bool)
    ensures Ties(a + b, x, le) == Ties(a, x, le) + Ties(b, x, le)
    decreases |b|
  {
    if b == [] {
      assert a + b == a;
    } else {
      var n := |b| - 1;
      assert (a + b)[..|a + b| - 1] == a + b[..n];
      TiesAppend(a, b[..n], x, le);
    }
  }

  lemma {:induction false} TiesOfNone<T(!new)>(s: seq<T>, x: T, le: (T, T) -> bool)
    requires forall y :: y in s ==> !Tie(y, x, le)
    ensures Ties(s, x, le) == []
  {
    if s != [] {
      TiesOfNone(s[..|s| - 1], x, le);
    }
  }

  lemma MergeFront<T(!new)>(p: seq<T>, q: seq<T>, le: (T, T) -> bool)
    requires p != [] && q != [] && le(p[0], q[0])
    ensures Merge(p, q, le) == [p[0]] + Merge(p[1..], q, le) && Merge(p, q, le)[1..] == Merge(p[1..], q, le)
  {
  }

  lemma TiesFront<T(!new)>(s: seq<T>, x: T, le: (T, T) -> bool)
    requires s != []
    ensures Ties(s, x, le) == (if Tie(s[0], x, le) then [s[0]] else []) + Ties(s[1..], x, le)
  {
    assert s == [s[0]] + s[1..];
    TiesAppend([s[0]], s[1..], x, le);
    assert [s[0]][..0] == [];
  }

  lemma {:induction false} MergeOneTies<T(!new)>(p: seq<T>, y: T, x: T, le: (T, T) -> bool)
    requires TotalPreorder(le) && Sorted(p, le)
    ensures Ties(Merge(p, [y], le), x, le) == Ties(p, x, le) + Ties([y], x, le)
    decreases |p|
  {
    if p == [] {
      assert Merge(p, [y], le) == [y];
    } else if le(p[0], y) {
      MergeOneTies(p[1..], y, x, le);
      TiesFront(p, x, le);
      MergeFront(p, [y], le);
      TiesFront(Merge(p, [y], le), x, le);
      Regroup(if Tie(p[0], x, le) then [p[0]] else [], Ties(p[1..], x, le), Ties([y], x, le));
    } else {
      MergeEmpty(p, le);
      assert [y][1..] == [];
      TiesAppend([y], p, x, le);
      if Tie(y, x, le) {
        TiesOfNone(p, x, le);
      }
    }
  }

  // Elements that tie keep their order.
  lemma {:induction false} SortIsStable<T(!new)>(s: seq<T>, x: T, le: (T, T) -> bool)
    requires TotalPreorder(le)
    ensures Ties(StableSort(s, le), x, le) == Ties(s, x, le)
  {
    if s != [] {
      var n := |s| - 1;
      SortIsStable(s[..n], x, le);
      SortSorts(s[..n], le);
      MergeOneTies(StableSort(s[..n], le), s[n], x, le);
      assert s == s[..n] + [s[n]];
      TiesAppend(s[..n], [s[n]], x, le);
    }
  }

  lemma TieFound<T(!new)>(s: seq<T>, x: T, le: (T, T) -> bool)
    requires TotalPreorder(le) && Sorted(s, le) && Ties(s, x, le) != []
    ensures s != [] && le(s[0], x)
  {
    if forall y :: y in s ==> !Tie(y, x, le) {
      TiesOfNone(s, x, le);
    } else {
      var i :| 0 <= i < |s| && Tie(s[i], x, le);
      assert i > 0 ==> le(s[0], s[i]);
    }
  }

  ghost predicate SameTies<T(!new)>(a: seq<T>, b: seq<T>, le: (T, T) -> bool) {
    forall x :: Ties(a, x, le) == Ties(b, x, le)
  }

  // Being sorted and keeping ties in order leaves one result.
  lemma {:induction false} OnlySort<T(!new)>(a: seq<T>, b: seq<T>, le: (T, T) -> bool)
    requires TotalPreorder(le) && Sorted(a, le) && Sorted(b, le) && SameTies(a, b, le)
    ensures a == b
    decreases |a|
  {
    if a == [] {
      if b != [] {
        TiesFront(b, b[0], le);
      }
    } else {
      TiesFront(a, a[0], le);
      TieFound(b, a[0], le);
      TiesFront(b, b[0], le);
      TieFound(a, b[0], le);
      TiesFront(b, a[0], le);
      assert a[0] == Ties(a, a[0], le)[0] == Ties(b, a[0], le)[0] == b[0];
      forall x
        ensures Ties(a[1..], x, le) == Ties(b[1..], x, le)
      {
        TiesFront(a, x, le);
        TiesFront(b, x, le);
        SameTail(if Tie(a[0], x, le) then [a[0]] else [], Ties(a[1..], x, le), Ties(b[1..], x, le));
      }
      OnlySort(a[1..], b[1..], le);
      assert a == [a[0]] + a[1..] && b == [b[0]] + b[1..];
    }
  }

  lemma SameTail<T>(a: seq<T>, b: seq<T>, c: seq<T>)
    requires a + b == a + c
    ensures b == c
  {
    assert b == (a + b)[|a|..] && c == (a + c)[|a|..];
  }

  lemma StableSortIsUnique<T(!new)>(s: seq<T>, r: seq<T>, le: (T, T) -> bool)
    requires TotalPreorder(le) && Sorted(r, le) && SameTies(r, s, le)
    ensures r == StableSort(s, le)
  {
    SortSorts(s, le);
    forall x
      ensures Ties(r, x, le) == Ties(StableSort(s, le), x, le)
    {
      SortIsStable(s, x, le);
    }
    OnlySort(r, StableSort(s, le), le);
  }

  lemma RestOf<T(!new)>(s: seq<T>)
    requires s != []
    ensures multiset(s[1..]) == multiset(s) - multiset{s[0]}
  {
    assert s == [s[0]] + s[1..];
  }

  lemma SameFirst<T(!new)>(a: seq<T>, b: seq<T>, le: (T, T) -> bool)
    requires a != [] && b != [] && Sorted(a, le) && Sorted(b, le) && multiset(a) == multiset(b)
    requires forall x, y :: x in a && y in a && Tie(x, y, le) ==> x == y
    ensures a[0] == b[0]
  {
    assert a[0] in multiset(a) && b[0] in multiset(b);
    var i :| 0 <= i < |b| && b[i] == a[0];
    var j :| 0 <= j < |a| && a[j] == b[0];
    if i > 0 && j > 0 {
      assert le(b[0], b[i]) && le(a[0], a[j]);
      assert Tie(a[0], b[0], le);
    }
  }

  // Without ties even an unstable sort has one result.
  lemma {:induction false} SortedWithoutTies<T(!new)>(a: seq<T>, b: seq<T>, le: (T, T) -> bool)
    requires Sorted(a, le) && Sorted(b, le) && multiset(a) == multiset(b)
    requires forall x, y :: x in a && y in a && Tie(x, y, le) ==> x == y
    ensures a == b
    decreases |a|
  {
    assert |multiset(a)| == |multiset(b)|;
    if a != [] {
      SameFirst(a, b, le);
      RestOf(a);
      RestOf(b);
      forall x, y | x in a[1..] && y in a[1..] && Tie(x, y, le)
        ensures x == y
      {
        assert x in a && y in a;
      }
      SortedWithoutTies(a[1..], b[1..], le);
      assert a == [a[0]] + a[1..] && b == [b[0]] + b[1..];
    }
  }

  function Swapped<T>(a: seq<T>, i: nat, j: nat): (r: seq<T>)
    requires i < |a| && j < |a|
    ensures |r| == |a|
  {
    a[i := a[j]][j := a[i]]
  }

  // Elements that tie may stand the other way round.
  lemma SwapTied<T(!new)>(a: seq<T>, i: nat, j: nat, le: (T, T) -> bool)
    requires TotalPreorder(le) && Sorted(a, le) && i < |a| && j < |a| && Tie(a[i], a[j], le)
    ensures Sorted(Swapped(a, i, j), le) && multiset(Swapped(a, i, j)) == multiset(a)
  {
    var b := Swapped(a, i, j);
    forall k, z | k == i || k == j
      ensures le(a[k], z) <==> le(b[k], z)
      ensures le(z, a[k]) <==> le(z, b[k])
    {
    }
    forall p, q | 0 <= p < q < |b|
      ensures le(b[p], b[q])
    {
      assert le(a[p], a[q]);
    }
  }

  // sort.Slice: nothing is promised about elements that tie.
  method Sort<T(!new)>(s: seq<T>, le: (T, T) -> bool) returns (r: seq<T>)
    requires TotalPreorder(le)
    ensures Sorted(r, le) && multiset(r) == multiset(s) && |r| == |s|
  {
    SortSorts(s, le);
    r := StableSort(s, le);
  }
}
