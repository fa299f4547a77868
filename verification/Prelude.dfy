/** What several modules share. */
module Prelude {
  datatype Option<+T> = None | Some(value: T)

  datatype Result<+T, +E> = Ok(value: T) | Err(error: E)

  // ---------- sequences ----------

  lemma Regroup<T>(a: seq<T>, b: seq<T>, c: seq<T>)
    ensures a + b + c == a + (b + c)
  {
  }

  function Concat(parts: seq<string>): string {
    if parts == [] then "" else parts[0] + Concat(parts[1..])
  }

  lemma {:induction false} ConcatLast(parts: seq<string>)
    requires parts != []
    ensures Concat(parts) == Concat(parts[..|parts| - 1]) + parts[|parts| - 1]
  {
    if |parts| > 1 {
      ConcatLast(parts[1..]);
      assert parts[1..][..|parts| - 2] == parts[..|parts| - 1][1..];
      Regroup(parts[0], Concat(parts[..|parts| - 1][1..]), parts[|parts| - 1]);
    }
  }

  // strings.Join
  function Join(parts: seq<string>, sep: string): string {
    if parts == [] then "" else if |parts| == 1 then parts[0] else parts[0] + sep + Join(parts[1..], sep)
  }

  // Every part is there, with one separator between each two.
  lemma {:induction false} JoinMeans(a: seq<string>, part: string, sep: string)
    ensures Join([], sep) == "" && Join([part], sep) == part
    ensures a != [] ==> Join(a + [part], sep) == Join(a, sep) + sep + part
  {
    if |a| == 1 {
      assert (a + [part])[1..] == [part];
    } else if a != [] {
      assert (a + [part])[1..] == a[1..] + [part];
      JoinMeans(a[1..], part, sep);
    }
  }

  lemma CountsTwice<T>(s: seq<T>, i: nat, j: nat)
    requires i < j < |s| && s[i] == s[j]
    ensures multiset(s)[s[i]] >= 2
  {
    assert s == s[..i] + [s[i]] + s[i + 1..j] + [s[j]] + s[j + 1..];
  }

  lemma CountsOnce<T>(s: seq<T>, x: T, k: nat)
    requires k < |s| && s[k] == x && forall i :: 0 <= i < |s| && i != k ==> s[i] != x
    ensures multiset(s)[x] == 1
  {
    assert s == s[..k] + [s[k]] + s[k + 1..];
    assert x !in s[..k] && x !in s[k + 1..];
  }

  lemma CountsAtMostOnce<T>(s: seq<T>, x: T)
    requires forall i, j :: 0 <= i < j < |s| ==> s[i] != s[j]
    ensures multiset(s)[x] <= 1
  {
    if x in s {
      var k :| 0 <= k < |s| && s[k] == x;
      CountsOnce(s, x, k);
    }
  }

  // ---------- text ----------

  // The white space of strings.TrimSpace.
  predicate IsUnicodeSpace(c: char) {
    var n := c as int;
    9 <= n <= 13 || n == 0x20 || n == 0x85 || n == 0xA0 || n == 0x1680 || 0x2000 <= n <= 0x200A ||
    n == 0x2028 || n == 0x2029 || n == 0x202F || n == 0x205F || n == 0x3000
  }

  // The 25 characters of Unicode's White_Space property.
  lemma UnicodeSpaces(c: char)
    ensures IsUnicodeSpace(c) <==>
            c as int in {
              0x9, 0xA, 0xB, 0xC, 0xD, 0x20, 0x85, 0xA0, 0x1680, 0x2000, 0x2001, 0x2002, 0x2003, 0x2004, 0x2005,
              0x2006, 0x2007, 0x2008, 0x2009, 0x200A, 0x2028, 0x2029, 0x202F, 0x205F, 0x3000}
  {
  }

  // Nothing is left after trimming.
  predicate Blank(s: string) {
    forall i :: 0 <= i < |s| ==> IsUnicodeSpace(s[i])
  }
}
