/** Go's order on strings, as sort.Strings uses it. */
module Text {
  import opened Prelude
  import opened Sorting

  predicate Leq(a: string, b: string) {
    a == [] || (b != [] && (a[0] < b[0] || (a[0] == b[0] && Leq(a[1..], b[1..]))))
  }

  // The first difference decides, a string that ends there going first.
  lemma {:induction false} LeqMeans(a: string, b: string, n: nat)
    requires n <= |a| && n <= |b| && a[..n] == b[..n]
    ensures n == |a| ==> Leq(a, b)
    ensures n == |b| < |a| ==> !Leq(a, b)
    ensures n < |a| && n < |b| && a[n] != b[n] ==> (Leq(a, b) <==> a[n] < b[n])
  {
    if n > 0 {
      assert a[..n][0] == b[..n][0] && a[1..][..n - 1] == a[..n][1..] && b[1..][..n - 1] == b[..n][1..];
      LeqMeans(a[1..], b[1..], n - 1);
    }
  }

  lemma {:induction false} LeqTotal(a: string, b: string)
    ensures Leq(a, b) || Leq(b, a)
    ensures Leq(a, b) && Leq(b, a) ==> a == b
  {
    if a != [] && b != [] {
      LeqTotal(a[1..], b[1..]);
      assert a == [a[0]] + a[1..] && b == [b[0]] + b[1..];
    }
  }

  lemma {:induction false} LeqTransitive(a: string, b: string, c: string)
    requires Leq(a, b) && Leq(b, c)
    ensures Leq(a, c)
  {
    if a != [] && a[0] == b[0] == c[0] {
      LeqTransitive(a[1..], b[1..], c[1..]);
    }
  }

  lemma LeqIsOrder()
    ensures TotalPreorder(Leq)
  {
    forall a, b
      ensures Leq(a, b) || Leq(b, a)
    {
      LeqTotal(a, b);
    }
    forall a, b, c | Leq(a, b) && Leq(b, c)
      ensures Leq(a, c)
    {
      LeqTransitive(a, b, c);
    }
  }

  // The elements of a set, each once, in order.
  ghost predicate Listing(names: seq<string>, keys: set<string>) {
    && Sorted(names, Leq)
    && (forall n :: n in names <==> n in keys)
    && forall i, j :: 0 <= i < j < |names| ==> names[i] != names[j]
  }

  lemma AlsoListed(a: seq<string>, b: seq<string>, keys: set<string>)
    requires Listing(a, keys) && Listing(b, keys) && a != []
    ensures b != [] && a[0] in b && b[0] in a
  {
    assert a[0] in keys;
    assert b[0] in keys;
  }

  lemma {:induction false} OneListing(a: seq<string>, b: seq<string>, keys: set<string>)
    requires Listing(a, keys) && Listing(b, keys)
    ensures a == b
    decreases |a|
  {
    if a == [] {
      if b != [] {
        AlsoListed(b, a, keys);
      }
    } else {
      AlsoListed(a, b, keys);
      assert a[0] in b && b[0] in a;
      LeqTotal(a[0], b[0]);
      var rest := keys - {a[0]};
      assert a[0] == b[0];
      RestIsListing(a, keys);
      RestIsListing(b, keys);
      OneListing(a[1..], b[1..], rest);
      assert a == [a[0]] + a[1..] && b == [b[0]] + b[1..];
    }
  }

  lemma RestIsListing(names: seq<string>, keys: set<string>)
    requires Listing(names, keys) && names != []
    ensures Listing(names[1..], keys - {names[0]})
  {
    forall n
      ensures n in names[1..] <==> n in keys - {names[0]}
    {
      if n in keys - {names[0]} {
        assert n in names;
        var i :| 0 <= i < |names| && names[i] == n;
        assert names[1..][i - 1] == n;
      }
    }
  }

  // The keys of a map, collected in any order and sorted.
  method SortedKeys(keys: set<string>) returns (names: seq<string>)
    ensures Listing(names, keys)
  {
    var left, found: seq<string> := keys, [];
    while left != {}
      invariant forall n :: n in keys <==> n in left || n in found
      invariant forall n :: n in found ==> n !in left
      invariant forall i, j :: 0 <= i < j < |found| ==> found[i] != found[j]
      decreases left
    {
      var n :| n in left;
      left, found := left - {n}, found + [n];
    }
    LeqIsOrder();
    names := Sort(found, Leq);
    SameMembers(names, found);
    DistinctByCount(found, names);
  }

  lemma SameMembers(a: seq<string>, b: seq<string>)
    requires multiset(a) == multiset(b)
    ensures forall n :: n in a <==> n in b
  {
    forall n
      ensures n in a <==> n in b
    {
      assert n in a <==> n in multiset(a);
      assert n in b <==> n in multiset(b);
    }
  }

  lemma DistinctByCount(a: seq<string>, b: seq<string>)
    requires multiset(a) == multiset(b)
    requires forall i, j :: 0 <= i < j < |a| ==> a[i] != a[j]
    ensures forall i, j :: 0 <= i < j < |b| ==> b[i] != b[j]
  {
    forall i, j | 0 <= i < j < |b|
      ensures b[i] != b[j]
    {
      if b[i] == b[j] {
        CountsTwice(b, i, j);
        CountsAtMostOnce(a, b[i]);
        assert false;
      }
    }
  }
}
