/** The metadata reader: a cursor over the file, reading exactly what the serializer
    writes, and the context length it reports (internal/llm/llamacpp/gguf.go). */
module GgufReader {
  import opened Gguf

  ghost predicate AllStrings(items: seq<seq<byte>>) {
    forall i :: 0 <= i < |items| ==> ValidString(items[i])
  }

  ghost predicate AllArrays(items: seq<Array>, depth: nat) {
    forall i :: 0 <= i < |items| ==> ValidArray(items[i], depth)
  }

  lemma StringsTake(items: seq<seq<byte>>, i: nat)
    requires i <= |items|
    ensures EncStrings(items)[..i] == EncStrings(items[..i])
  {
  }

  lemma {:induction false} ArraysTake(items: seq<Array>, i: nat)
    requires i <= |items|
    ensures EncArrays(items)[..i] == EncArrays(items[..i])
    ensures i < |items| ==> EncArrays(items)[i] == EncArray(items[i])
    decreases |items|
  {
    if i < |items| {
      var n := |items| - 1;
      ArraysTake(items[..n], i);
      assert items[..n][..i] == items[..i];
      assert EncArrays(items)[..i] == EncArrays(items[..n])[..i];
    } else {
      assert items[..i] == items;
    }
  }

  lemma StringsAppend(items: seq<seq<byte>>, s: seq<byte>)
    ensures EncStrings(items + [s]) == EncStrings(items) + [EncString(s)]
  {
  }

  lemma ArraysAppend(items: seq<Array>, a: Array)
    ensures EncArrays(items + [a]) == EncArrays(items) + [EncArray(a)]
  {
    assert (items + [a])[..|items + [a]| - 1] == items;
  }

  // The encoding of a valid value begins here.
  ghost predicate StringHere(data: seq<byte>, pos: nat, s: seq<byte>) {
    ValidString(s) && At(data, pos, EncString(s))
  }

  ghost predicate StringsHere(data: seq<byte>, pos: nat, count: nat, items: seq<seq<byte>>) {
    |items| == count && AllStrings(items) && At(data, pos, Flat(EncStrings(items)))
  }

  ghost predicate ArrayHere(data: seq<byte>, pos: nat, depth: nat, a: Array) {
    ValidArray(a, depth) && At(data, pos, EncArray(a))
  }

  ghost predicate ArraysHere(data: seq<byte>, pos: nat, depth: nat, count: nat, items: seq<Array>) {
    |items| == count && AllArrays(items, depth) && At(data, pos, Flat(EncArrays(items)))
  }

  ghost predicate ValueHere(data: seq<byte>, pos: nat, typ: nat, v: Value) {
    ValidValue(v) && TypeOf(v) == typ && At(data, pos, EncPayload(v))
  }

  // The next of several parts begins after those read.
  lemma NextPart(data: seq<byte>, base: nat, all: seq<seq<byte>>, parts: seq<seq<byte>>, next: seq<byte>)
    requires |parts| < |all| && all[..|parts|] == parts && all[|parts|] == next && At(data, base, Flat(all))
    ensures At(data, base + |Flat(parts)|, next)
  {
    FlatAt(data, base, all, |parts|);
  }

  lemma NextString(data: seq<byte>, base: nat, here: nat, all: seq<seq<byte>>, items: seq<seq<byte>>)
    requires |items| < |all| && all[..|items|] == items && StringsHere(data, base, |all|, all)
    requires here == base + |Flat(EncStrings(items))|
    ensures StringHere(data, here, all[|items|])
  {
    StringsTake(all, |items|);
    NextPart(data, base, EncStrings(all), EncStrings(items), EncString(all[|items|]));
  }

  lemma NextArray(data: seq<byte>, base: nat, here: nat, depth: nat, all: seq<Array>, items: seq<Array>)
    requires |items| < |all| && all[..|items|] == items && ArraysHere(data, base, depth, |all|, all)
    requires here == base + |Flat(EncArrays(items))|
    ensures ArrayHere(data, here, depth, all[|items|])
  {
    ArraysTake(all, |items|);
    NextPart(data, base, EncArrays(all), EncArrays(items), EncArray(all[|items|]));
  }

  lemma OneMoreString(data: seq<byte>, base: nat, items: seq<seq<byte>>, s: seq<byte>)
    requires StringsHere(data, base, |items|, items) && StringHere(data, base + |Flat(EncStrings(items))|, s)
    ensures StringsHere(data, base, |items| + 1, items + [s])
    ensures |Flat(EncStrings(items + [s]))| == |Flat(EncStrings(items))| + |EncString(s)|
  {
    StringsAppend(items, s);
    FlatMore(data, base, EncStrings(items), EncString(s));
  }

  lemma AllArraysAppend(depth: nat, items: seq<Array>, a: Array)
    requires AllArrays(items, depth) && ValidArray(a, depth)
    ensures AllArrays(items + [a], depth)
  {
  }

  lemma OneMoreArray(data: seq<byte>, base: nat, depth: nat, items: seq<Array>, a: Array)
    requires ArraysHere(data, base, depth, |items|, items) && ArrayHere(data, base + |Flat(EncArrays(items))|, depth, a)
    ensures ArraysHere(data, base, depth, |items| + 1, items + [a])
    ensures |Flat(EncArrays(items + [a]))| == |Flat(EncArrays(items))| + |EncArray(a)|
  {
    AllArraysAppend(depth, items, a);
    ArraysAppend(items, a);
    FlatMore(data, base, EncArrays(items), EncArray(a));
  }

  // Whatever valid items are encoded at the base, they begin with these.
  ghost predicate StringsBegin(data: seq<byte>, base: nat, count: nat, items: seq<seq<byte>>) {
    |items| <= count && forall all :: StringsHere(data, base, count, all) ==> all[..|items|] == items
  }

  ghost predicate ArraysBegin(data: seq<byte>, base: nat, depth: nat, count: nat, items: seq<Array>) {
    |items| <= count && forall all :: ArraysHere(data, base, depth, count, all) ==> all[..|items|] == items
  }

  // What begins at the base continues, if at all, with the item read here.
  lemma OnlyStrings(data: seq<byte>, base: nat, here: nat, count: nat, items: seq<seq<byte>>, ok: bool, s: seq<byte>)
    requires |items| < count && here == base + |Flat(EncStrings(items))|
    requires StringsBegin(data, base, count, items)
    requires forall t :: StringHere(data, here, t) ==> ok && t == s
    ensures forall all :: StringsHere(data, base, count, all) ==> ok
    ensures StringsBegin(data, base, count, items + [s])
  {
    forall all | StringsHere(data, base, count, all)
      ensures ok && all[..|items| + 1] == items + [s]
    {
      NextString(data, base, here, all, items);
      assert all[..|items| + 1] == all[..|items|] + [all[|items|]];
    }
  }

  lemma OnlyArrays(data: seq<byte>, base: nat, here: nat, depth: nat, count: nat, items: seq<Array>, ok: bool, a: Array)
    requires |items| < count && here == base + |Flat(EncArrays(items))|
    requires ArraysBegin(data, base, depth, count, items)
    requires forall b :: ArrayHere(data, here, depth, b) ==> ok && b == a
    ensures forall all :: ArraysHere(data, base, depth, count, all) ==> ok
    ensures ArraysBegin(data, base, depth, count, items + [a])
  {
    forall all | ArraysHere(data, base, depth, count, all)
      ensures ok && all[..|items| + 1] == items + [a]
    {
      NextArray(data, base, here, depth, all, items);
      assert all[..|items| + 1] == all[..|items|] + [all[|items|]];
    }
  }

  lemma NoStrings(data: seq<byte>, base: nat, count: nat)
    requires base <= |data|
    ensures StringsHere(data, base, 0, []) && |Flat(EncStrings([]))| == 0 && StringsBegin(data, base, count, [])
  {
  }

  lemma NoArrays(data: seq<byte>, base: nat, depth: nat, count: nat)
    requires base <= |data|
    ensures ArraysHere(data, base, depth, 0, []) && |Flat(EncArrays([]))| == 0 &&
            ArraysBegin(data, base, depth, count, [])
  {
  }

  lemma WholeStrings(data: seq<byte>, base: nat, count: nat, items: seq<seq<byte>>)
    requires |items| == count && StringsBegin(data, base, count, items)
    ensures forall all :: StringsHere(data, base, count, all) ==> all == items
  {
    forall all | StringsHere(data, base, count, all)
      ensures all == items
    {
      assert all[..count] == all;
    }
  }

  lemma WholeArrays(data: seq<byte>, base: nat, depth: nat, count: nat, items: seq<Array>)
    requires |items| == count && ArraysBegin(data, base, depth, count, items)
    ensures forall all :: ArraysHere(data, base, depth, count, all) ==> all == items
  {
    forall all | ArraysHere(data, base, depth, count, all)
      ensures all == items
    {
      assert all[..count] == all;
    }
  }

  class Reader {
    const data: seq<byte>
    var pos: nat

    ghost predicate Valid()
      reads this
    {
      pos <= |data|
    }

    constructor (data: seq<byte>)
      ensures Valid() && this.data == data && pos == 0
    {
      this.data := data;
      pos := 0;
    }

    // io.ReadFull
    method Full(n: nat) returns (ok: bool, buf: seq<byte>)
      requires Valid()
      modifies this
      ensures Valid()
      ensures ok <==> old(pos) + n <= |data|
      ensures ok ==> |buf| == n && At(data, old(pos), buf) && pos == old(pos) + n
    {
      ok, buf := pos + n <= |data|, [];
      if ok {
        buf := data[pos..pos + n];
        pos := pos + n;
      }
    }

    method Number(width: nat) returns (ok: bool, n: nat)
      requires Valid()
      modifies this
      ensures Valid()
      ensures ok <==> old(pos) + width <= |data|
      ensures ok ==> n < Pow256(width) && At(data, old(pos), LE(n, width)) && pos == old(pos) + width
      ensures forall m: nat :: m < Pow256(width) && At(data, old(pos), LE(m, width)) ==> ok && m == n
    {
      var buf;
      ok, buf := Full(width);
      n := FromLE(buf);
      if ok {
        LEOfFromLE(buf);
        forall m: nat | m < Pow256(width) && At(data, old(pos), LE(m, width))
          ensures m == n
        {
          AtOnce(data, old(pos), m, n, width);
        }
      }
    }

    method U32() returns (ok: bool, n: nat)
      requires Valid()
      modifies this
      ensures Valid()
      ensures ok <==> old(pos) + 4 <= |data|
      ensures ok ==> n < LIMIT32 && At(data, old(pos), LE(n, 4)) && pos == old(pos) + 4
      ensures forall m: nat :: m < LIMIT32 && At(data, old(pos), LE(m, 4)) ==> ok && m == n
    {
      Powers();
      ok, n := Number(4);
    }

    method U64() returns (ok: bool, n: nat)
      requires Valid()
      modifies this
      ensures Valid()
      ensures ok <==> old(pos) + 8 <= |data|
      ensures ok ==> n < LIMIT64 && At(data, old(pos), LE(n, 8)) && pos == old(pos) + 8
      ensures forall m: nat :: m < LIMIT64 && At(data, old(pos), LE(m, 8)) ==> ok && m == n
    {
      Powers();
      ok, n := Number(8);
    }

    // Reads the string encoded here; fails exactly when none is.
    method ReadString() returns (ok: bool, s: seq<byte>)
      requires Valid()
      modifies this
      ensures Valid()
      ensures ok ==> StringHere(data, old(pos), s) && pos == old(pos) + |EncString(s)|
      ensures forall t :: StringHere(data, old(pos), t) ==> ok && t == s
    {
      ghost var start := pos;
      var n;
      ok, n := U64();
      forall t | StringHere(data, start, t)
        ensures ok && |t| == n && At(data, start + 8, t)
      {
        StringAt(data, start, t);
      }
      s := [];
      if !ok || n > MAX_STRING_LEN {
        ok := false;
        return;
      }
      ok, s := Full(n);
      if ok {
        StringAt(data, start, s);
        forall t | StringHere(data, start, t)
          ensures t == s
        {
          AtSlice(data, start + 8, t);
          AtSlice(data, start + 8, s);
        }
      }
    }

    method Skip(n: nat) returns (ok: bool, ghost raw: seq<byte>)
      requires Valid()
      modifies this
      ensures Valid()
      ensures ok <==> old(pos) + n <= |data|
      ensures ok ==> |raw| == n && At(data, old(pos), raw) && pos == old(pos) + n
    {
      ok, raw := pos + n <= |data|, [];
      if ok {
        raw := data[pos..pos + n];
        pos := pos + n;
      }
    }

    method SkipStrings(count: nat) returns (ok: bool, ghost items: seq<seq<byte>>)
      requires Valid()
      modifies this
      ensures Valid()
      ensures ok ==> StringsHere(data, old(pos), count, items) && pos == old(pos) + |Flat(EncStrings(items))|
      ensures forall all :: StringsHere(data, old(pos), count, all) ==> ok && all == items
    {
      ghost var base := pos;
      items := [];
      NoStrings(data, base, count);
      var i := 0;
      while i < count
        invariant Valid() && |items| == i <= count
        invariant StringsHere(data, base, i, items) && pos == base + |Flat(EncStrings(items))|
        invariant StringsBegin(data, base, count, items)
      {
        ghost var here := pos;
        var s;
        ok, s := ReadString();
        OnlyStrings(data, base, here, count, items, ok, s);
        if !ok {
          return;
        }
        OneMoreString(data, base, items, s);
        items := items + [s];
        i := i + 1;
      }
      ok := true;
      WholeStrings(data, base, count, items);
    }

    method SkipArrays(count: nat, depth: nat) returns (ok: bool, ghost items: seq<Array>)
      requires depth <= MAX_ARRAY_DEPTH
      requires Valid()
      modifies this
      ensures Valid()
      decreases MAX_ARRAY_DEPTH - depth, 1
      ensures ok ==> ArraysHere(data, old(pos), depth, count, items) && pos == old(pos) + |Flat(EncArrays(items))|
      ensures forall all :: ArraysHere(data, old(pos), depth, count, all) ==> ok && all == items
    {
      ghost var base := pos;
      items := [];
      NoArrays(data, base, depth, count);
      var i := 0;
      while i < count
        invariant Valid() && |items| == i <= count
        invariant ArraysHere(data, base, depth, i, items) && pos == base + |Flat(EncArrays(items))|
        invariant ArraysBegin(data, base, depth, count, items)
      {
        ghost var here := pos;
        ghost var a;
        ok, a := SkipArray(depth);
        OnlyArrays(data, base, here, depth, count, items, ok, a);
        if !ok {
          return;
        }
        OneMoreArray(data, base, depth, items, a);
        items := items + [a];
        i := i + 1;
      }
      ok := true;
      WholeArrays(data, base, depth, count, items);
    }

    // The element type and the count of an array; too long an array is refused.
    method ReadHead(ghost depth: nat) returns (ok: bool, elemType: nat, count: nat)
      requires Valid()
      modifies this
      ensures Valid()
      ensures ok ==> elemType < LIMIT32 && count <= MAX_ARRAY_LEN && pos == old(pos) + 12
      ensures ok ==> At(data, old(pos), LE(elemType, 4)) && At(data, old(pos) + 4, LE(count, 8))
      ensures forall b :: ArrayHere(data, old(pos), depth, b) ==>
                            ok && HeaderOf(b, elemType, count) && At(data, old(pos) + 12, EncItems(b))
    {
      ghost var start := pos;
      count := 0;
      ok, elemType := U32();
      if ok {
        ok, count := U64();
      }
      forall b | ArrayHere(data, start, depth, b)
        ensures ok && HeaderOf(b, elemType, count) && At(data, start + 12, EncItems(b))
      {
        HeaderHere(data, start, depth, b);
      }
      ok := ok && count <= MAX_ARRAY_LEN;
    }

    // Skips exactly the array encoded here; fails exactly when none is.
    method SkipArray(depth: nat) returns (ok: bool, ghost a: Array)
      requires depth <= MAX_ARRAY_DEPTH
      requires Valid()
      modifies this
      ensures Valid()
      decreases MAX_ARRAY_DEPTH - depth, 0
      ensures ok ==> ArrayHere(data, old(pos), depth, a) && pos == old(pos) + |EncArray(a)|
      ensures forall b :: ArrayHere(data, old(pos), depth, b) ==> ok && b == a
    {
      ghost var start := pos;
      a := Strings([]);
      if depth >= MAX_ARRAY_DEPTH {
        return false, a;
      }
      var elemType, count;
      ok, elemType, count := ReadHead(depth);
      if !ok {
        return;
      }
      if Width(elemType) > 0 {
        ghost var raw;
        ok, raw := Skip(count * Width(elemType));
        a := Scalars(elemType, count, raw);
        forall b | ArrayHere(data, start, depth, b)
          ensures ok && b == a
        {
          AtSlice(data, start + 12, b.raw);
          AtSlice(data, start + 12, raw);
        }
      } else if elemType == TYPE_STRING {
        ghost var items;
        ok, items := SkipStrings(count);
        a := Strings(items);
        forall b | ArrayHere(data, start, depth, b)
          ensures ok && b == a
        {
          assert StringsHere(data, start + 12, count, b.strings);
        }
      } else if elemType == TYPE_ARRAY {
        ghost var items;
        ok, items := SkipArrays(count, depth + 1);
        a := Arrays(items);
        forall b | ArrayHere(data, start, depth, b)
          ensures ok && b == a
        {
          assert ArraysHere(data, start + 12, depth + 1, count, b.arrays);
        }
      } else {
        ok := false;
      }
      if ok {
        ArrayAt(data, start, a);
      }
    }

    // Consumes exactly the value of this type encoded here; usable if it is unsigned.
    method UintValue(typ: nat) returns (ok: bool, usable: bool, n: nat, ghost v: Value)
      requires Valid()
      modifies this
      ensures Valid()
      ensures ok ==> ValueHere(data, old(pos), typ, v) && pos == old(pos) + |EncPayload(v)|
      ensures ok ==> usable == Unsigned(v) && (usable ==> n == NumberOf(v))
      ensures forall w :: ValueHere(data, old(pos), typ, w) ==> ok && w == v
    {
      usable, n, v := false, 0, Str([]);
      if Width(typ) > 0 {
        var b;
        ok, b := Full(Width(typ));
        usable := typ == 0 || typ == 2 || typ == 4 || typ == 10;
        n := FromLE(b);
        v := Scalar(typ, b);
        forall w | ValueHere(data, old(pos), typ, w)
          ensures ok && w == v
        {
          AtSlice(data, old(pos), w.raw);
          AtSlice(data, old(pos), b);
        }
      } else if typ == TYPE_STRING {
        var s;
        ok, s := ReadString();
        v := Str(s);
        forall w | ValueHere(data, old(pos), typ, w)
          ensures ok && w == v
        {
          assert StringHere(data, old(pos), w.s);
        }
      } else if typ == TYPE_ARRAY {
        ghost var a;
        ok, a := SkipArray(0);
        v := Arr(a);
        forall w | ValueHere(data, old(pos), typ, w)
          ensures ok && w == v
        {
          assert ArrayHere(data, old(pos), 0, w.a);
        }
      } else {
        ok := false;
      }
    }
  }

  ghost predicate HeaderOf(a: Array, elemType: nat, count: nat) {
    ElemTypeOf(a) == elemType && CountOf(a) == count && count <= MAX_ARRAY_LEN
  }

  lemma HeaderHere(data: seq<byte>, pos: nat, depth: nat, a: Array)
    requires ArrayHere(data, pos, depth, a)
    ensures ElemTypeOf(a) < LIMIT32 && At(data, pos, LE(ElemTypeOf(a), 4))
    ensures CountOf(a) <= MAX_ARRAY_LEN < LIMIT64 && At(data, pos + 4, LE(CountOf(a), 8))
    ensures At(data, pos + 12, EncItems(a))
  {
    ArrayAt(data, pos, a);
  }
}
