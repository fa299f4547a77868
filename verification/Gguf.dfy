/** The GGUF metadata format: a serializer, and the facts that make it readable
    (section "File Structure" of the GGUF specification; internal/llm/llamacpp/gguf.go). */
module Gguf {
  type byte = n: int | 0 <= n < 256

  const MAX_KV_COUNT := 65536
  const MAX_STRING_LEN := 67108864
  const MAX_ARRAY_LEN := 67108864
  const MAX_ARRAY_DEPTH := 4

  const LIMIT32 := 0x1_0000_0000
  const LIMIT64 := 0x1_0000_0000_0000_0000

  const TYPE_STRING := 8
  const TYPE_ARRAY := 9

  function Ascii(s: string): seq<byte> {
    seq(|s|, i requires 0 <= i < |s| => s[i] as int % 256)
  }

  const MAGIC := Ascii("GGUF")
  const ARCHITECTURE := Ascii("general.architecture")
  const SUFFIX := Ascii(".context_length")

  // ---------- little-endian numbers ----------

  function Pow256(k: nat): nat {
    if k == 0 then 1 else 256 * Pow256(k - 1)
  }

  function Digit(n: nat, i: nat): byte {
    if i == 0 then n % 256 else Digit(n / 256, i - 1)
  }

  function LE(n: nat, k: nat): (b: seq<byte>)
    ensures |b| == k
  {
    seq(k, i requires 0 <= i < k => Digit(n, i))
  }

  function FromLE(b: seq<byte>): nat {
    if b == [] then 0 else b[0] + 256 * FromLE(b[1..])
  }

  lemma {:induction false} FromLEOfLE(n: nat, k: nat)
    requires n < Pow256(k)
    ensures FromLE(LE(n, k)) == n
  {
    if k > 0 {
      assert LE(n, k)[1..] == LE(n / 256, k - 1);
      FromLEOfLE(n / 256, k - 1);
    }
  }

  lemma {:induction false} LEOfFromLE(b: seq<byte>)
    ensures FromLE(b) < Pow256(|b|) && LE(FromLE(b), |b|) == b
  {
    if b != [] {
      var n := FromLE(b);
      LEOfFromLE(b[1..]);
      assert n / 256 == FromLE(b[1..]) && n % 256 == b[0];
      forall i | 0 <= i < |b|
        ensures LE(n, |b|)[i] == b[i]
      {
        assert i > 0 ==> Digit(n, i) == LE(n / 256, |b| - 1)[i - 1] == b[1..][i - 1];
      }
    }
  }

  lemma Powers()
    ensures Pow256(4) == LIMIT32 && Pow256(8) == LIMIT64
  {
    assert Pow256(4) == 256 * Pow256(3) && Pow256(3) == 256 * Pow256(2);
    assert Pow256(8) == 256 * Pow256(7) && Pow256(7) == 256 * Pow256(6) && Pow256(6) == 256 * Pow256(5) &&
           Pow256(5) == 256 * Pow256(4);
  }

  // ---------- values ----------

  // A scalar keeps its bytes; of a signed, floating or boolean one the reader uses none.
  datatype Value = Scalar(typ: nat, raw: seq<byte>) | Str(s: seq<byte>) | Arr(a: Array)

  datatype Array =
    | Scalars(elemType: nat, count: nat, raw: seq<byte>)
    | Strings(strings: seq<seq<byte>>)
    | Arrays(arrays: seq<Array>)

  datatype Entry = Entry(key: seq<byte>, value: Value)

  datatype Header = Header(version: nat, tensors: nat, entries: seq<Entry>)

  // Bytes of a scalar type; 0 for the other types.
  function Width(typ: nat): nat {
    if typ == 0 || typ == 1 || typ == 7 then 1
    else if typ == 2 || typ == 3 then 2
    else if typ == 4 || typ == 5 || typ == 6 then 4
    else if typ == 10 || typ == 11 || typ == 12 then 8
    else 0
  }

  predicate Unsigned(v: Value) {
    v.Scalar? && (v.typ == 0 || v.typ == 2 || v.typ == 4 || v.typ == 10)
  }

  function NumberOf(v: Value): nat
    requires v.Scalar?
  {
    FromLE(v.raw)
  }

  function TypeOf(v: Value): nat {
    match v
    case Scalar(typ, _) => typ
    case Str(_) => TYPE_STRING
    case Arr(_) => TYPE_ARRAY
  }

  // ---------- what the reader's bounds admit ----------

  ghost predicate ValidString(s: seq<byte>) {
    |s| <= MAX_STRING_LEN
  }

  // At most four arrays deep.
  ghost predicate ValidArray(a: Array, depth: nat)
    decreases MAX_ARRAY_DEPTH - depth
  {
    depth < MAX_ARRAY_DEPTH &&
    match a
    case Scalars(t, n, raw) => Width(t) > 0 && n <= MAX_ARRAY_LEN && |raw| == n * Width(t)
    case Strings(items) => |items| <= MAX_ARRAY_LEN && forall i :: 0 <= i < |items| ==> ValidString(items[i])
    case Arrays(items) => |items| <= MAX_ARRAY_LEN && forall i :: 0 <= i < |items| ==> ValidArray(items[i], depth + 1)
  }

  ghost predicate ValidValue(v: Value) {
    match v
    case Scalar(typ, raw) => Width(typ) > 0 && |raw| == Width(typ)
    case Str(s) => ValidString(s)
    case Arr(a) => ValidArray(a, 0)
  }

  ghost predicate ValidEntry(e: Entry) {
    ValidString(e.key) && ValidValue(e.value)
  }

  ghost predicate ValidHeader(h: Header) {
    && (h.version == 2 || h.version == 3) && h.tensors < LIMIT64 && |h.entries| <= MAX_KV_COUNT
    && forall i :: 0 <= i < |h.entries| ==> ValidEntry(h.entries[i])
  }

  ghost predicate DistinctKeys(entries: seq<Entry>) {
    forall i, j :: 0 <= i < j < |entries| ==> entries[i].key != entries[j].key
  }

  // ---------- the serializer ----------

  function EncString(s: seq<byte>): seq<byte> {
    LE(|s|, 8) + s
  }

  function Flat(parts: seq<seq<byte>>): seq<byte> {
    if parts == [] then [] else Flat(parts[..|parts| - 1]) + parts[|parts| - 1]
  }

  function EncStrings(items: seq<seq<byte>>): (r: seq<seq<byte>>)
    ensures |r| == |items| && forall i :: 0 <= i < |items| ==> r[i] == EncString(items[i])
  {
    seq(|items|, i requires 0 <= i < |items| => EncString(items[i]))
  }

  function CountOf(a: Array): nat {
    match a
    case Scalars(_, n, _) => n
    case Strings(items) => |items|
    case Arrays(items) => |items|
  }

  function ElemTypeOf(a: Array): nat {
    match a
    case Scalars(t, _, _) => t
    case Strings(_) => TYPE_STRING
    case Arrays(_) => TYPE_ARRAY
  }

  function EncItems(a: Array): seq<byte>
    decreases a, 0
  {
    match a
    case Scalars(_, _, raw) => raw
    case Strings(items) => Flat(EncStrings(items))
    case Arrays(items) => Flat(EncArrays(items))
  }

  function EncArray(a: Array): seq<byte>
    decreases a, 1
  {
    LE(ElemTypeOf(a), 4) + LE(CountOf(a), 8) + EncItems(a)
  }

  function EncArrays(items: seq<Array>): (r: seq<seq<byte>>)
    ensures |r| == |items|
    decreases items, 2
  {
    if items == [] then [] else EncArrays(items[..|items| - 1]) + [EncArray(items[|items| - 1])]
  }

  function EncPayload(v: Value): seq<byte> {
    match v
    case Scalar(_, raw) => raw
    case Str(s) => EncString(s)
    case Arr(a) => EncArray(a)
  }

  function EncEntry(e: Entry): seq<byte> {
    EncString(e.key) + LE(TypeOf(e.value), 4) + EncPayload(e.value)
  }

  function EncEntries(entries: seq<Entry>): (r: seq<seq<byte>>)
    ensures |r| == |entries| && forall i :: 0 <= i < |entries| ==> r[i] == EncEntry(entries[i])
  {
    seq(|entries|, i requires 0 <= i < |entries| => EncEntry(entries[i]))
  }

  function EncHeader(h: Header): seq<byte> {
    MAGIC + LE(h.version, 4) + LE(h.tensors, 8) + LE(|h.entries|, 8) + Flat(EncEntries(h.entries))
  }

  // ---------- the format, spelled out ----------

  lemma WordsAre()
    ensures MAGIC == [0x47, 0x47, 0x55, 0x46]
    ensures ARCHITECTURE ==
            [103, 101, 110, 101, 114, 97, 108, 46, 97, 114, 99, 104, 105, 116, 101, 99, 116, 117, 114, 101]
    ensures SUFFIX == [46, 99, 111, 110, 116, 101, 120, 116, 95, 108, 101, 110, 103, 116, 104]
  {
  }

  lemma LittleEndian(n: nat)
    ensures LE(n, 4) == [n % 256, n / 256 % 256, n / 256 / 256 % 256, n / 256 / 256 / 256 % 256]
    ensures LE(n, 8) ==
            LE(n, 4) + [n / 256 / 256 / 256 / 256 % 256, n / 256 / 256 / 256 / 256 / 256 % 256,
                        n / 256 / 256 / 256 / 256 / 256 / 256 % 256,
                        n / 256 / 256 / 256 / 256 / 256 / 256 / 256 % 256]
  {
    assert Digit(n, 1) == Digit(n / 256, 0);
    assert Digit(n, 2) == Digit(n / 256, 1) == Digit(n / 256 / 256, 0);
    assert Digit(n, 3) == Digit(n / 256, 2) == Digit(n / 256 / 256, 1) == Digit(n / 256 / 256 / 256, 0);
    var m := n / 256 / 256 / 256 / 256;
    DigitsBehind(n, 0);
    DigitsBehind(n, 1);
    DigitsBehind(n, 2);
    DigitsBehind(n, 3);
    assert Digit(m, 1) == Digit(m / 256, 0);
    assert Digit(m, 2) == Digit(m / 256, 1) == Digit(m / 256 / 256, 0);
    assert Digit(m, 3) == Digit(m / 256, 2) == Digit(m / 256 / 256, 1) == Digit(m / 256 / 256 / 256, 0);
  }

  lemma DigitsBehind(n: nat, i: nat)
    ensures Digit(n, i + 4) == Digit(n / 256 / 256 / 256 / 256, i)
  {
    assert Digit(n, i + 4) == Digit(n / 256, i + 3) == Digit(n / 256 / 256, i + 2);
    assert Digit(n / 256 / 256, i + 2) == Digit(n / 256 / 256 / 256, i + 1);
  }

  // The sizes of the scalar types, and which of them are unsigned; strings are type 8 and
  // arrays type 9.
  lemma TypesAre(v: Value)
    ensures forall typ ::
              Width(typ) ==
              if typ in {0, 1, 7} then 1
              else if typ in {2, 3} then 2
              else if typ in {4, 5, 6} then 4
              else if typ in {10, 11, 12} then 8
              else 0
    ensures Unsigned(v) <==> v.Scalar? && v.typ in {0, 2, 4, 10}
    ensures v.Str? ==> TypeOf(v) == 8
    ensures v.Arr? ==> TypeOf(v) == 9
    ensures v.Scalar? ==> TypeOf(v) == v.typ
  {
  }

  // n arrays around an array of nothing.
  function Nested(n: nat): Array {
    if n == 0 then Strings([]) else Arrays([Nested(n - 1)])
  }

  lemma {:induction false} NestedValid(n: nat, depth: nat)
    ensures ValidArray(Nested(n), depth) <==> n + depth < 4
    decreases n
  {
    if n > 0 {
      NestedValid(n - 1, depth + 1);
      assert depth < 4 ==> ([Nested(n - 1)][0] == Nested(n - 1));
    }
  }

  // What the bounds are.
  lemma BoundsAre(s: seq<byte>, h: Header, n: nat)
    ensures ValidString(s) <==> |s| <= 64 * 1024 * 1024
    ensures ValidArray(Strings(seq(n, _ => [])), 0) <==> n <= 64 * 1024 * 1024
    ensures ValidArray(Scalars(0, n, seq(n, _ => 0)), 0) <==> n <= 64 * 1024 * 1024
    ensures ValidHeader(h) ==> 2 <= h.version <= 3 && |h.entries| <= 64 * 1024
    ensures ValidHeader(h.(entries := [])) <==> 2 <= h.version <= 3 && h.tensors < LIMIT64
  {
    var strings: seq<seq<byte>> := seq(n, _ => []);
    assert forall i :: 0 <= i < |strings| ==> strings[i] == [];
  }

  lemma SmallNumber(n: nat)
    requires n < 256
    ensures LE(n, 4) == [n, 0, 0, 0] && LE(n, 8) == [n, 0, 0, 0, 0, 0, 0, 0]
  {
    LittleEndian(n);
  }

  // A whole file, byte by byte: version 3, no tensors, an architecture and its context length.
  lemma SmallFile(llama: seq<byte>)
    requires |llama| == 5
    ensures EncHeader(Header(3, 0, [Entry(ARCHITECTURE, Str(llama)),
                                    Entry(llama + SUFFIX, Scalar(4, [0, 32, 0, 0]))])) ==
            [0x47, 0x47, 0x55, 0x46] + [3, 0, 0, 0] + [0, 0, 0, 0, 0, 0, 0, 0] + [2, 0, 0, 0, 0, 0, 0, 0] +
            ([20, 0, 0, 0, 0, 0, 0, 0] + ARCHITECTURE + [8, 0, 0, 0] + ([5, 0, 0, 0, 0, 0, 0, 0] + llama) +
             ([20, 0, 0, 0, 0, 0, 0, 0] + (llama + SUFFIX) + [4, 0, 0, 0] + [0, 32, 0, 0]))
  {
    SmallNumber(0);
    SmallNumber(2);
    SmallNumber(3);
    Magic();
    var a, c := Entry(ARCHITECTURE, Str(llama)), Entry(llama + SUFFIX, Scalar(4, [0, 32, 0, 0]));
    SmallEntries(llama);
    TwoEntries(a, c);
  }

  lemma Magic()
    ensures MAGIC == [0x47, 0x47, 0x55, 0x46] && |ARCHITECTURE| == 20 && |SUFFIX| == 15
  {
    WordsAre();
  }

  lemma SmallEntries(llama: seq<byte>)
    requires |llama| == 5
    ensures EncEntry(Entry(ARCHITECTURE, Str(llama))) ==
            [20, 0, 0, 0, 0, 0, 0, 0] + ARCHITECTURE + [8, 0, 0, 0] + ([5, 0, 0, 0, 0, 0, 0, 0] + llama)
    ensures EncEntry(Entry(llama + SUFFIX, Scalar(4, [0, 32, 0, 0]))) ==
            [20, 0, 0, 0, 0, 0, 0, 0] + (llama + SUFFIX) + [4, 0, 0, 0] + [0, 32, 0, 0]
  {
    Magic();
    SmallNumber(4);
    SmallNumber(5);
    SmallNumber(8);
    SmallNumber(20);
  }

  lemma TwoEntries(a: Entry, b: Entry)
    ensures Flat(EncEntries([a, b])) == EncEntry(a) + EncEntry(b)
  {
    var parts := EncEntries([a, b]);
    assert parts == [EncEntry(a)] + [EncEntry(b)];
    FlatMore([], 0, [EncEntry(a)], EncEntry(b));
    FlatMore([], 0, [], EncEntry(a));
    assert [] + [EncEntry(a)] == [EncEntry(a)] && Flat([]) + EncEntry(a) == EncEntry(a);
  }

  // ---------- an encoding at a place of the file ----------

  ghost predicate At(data: seq<byte>, pos: nat, bytes: seq<byte>) {
    pos + |bytes| <= |data| && forall i :: 0 <= i < |bytes| ==> data[pos + i] == bytes[i]
  }

  lemma AtSlice(data: seq<byte>, pos: nat, bytes: seq<byte>)
    ensures At(data, pos, bytes) <==> pos + |bytes| <= |data| && data[pos..pos + |bytes|] == bytes
  {
  }

  lemma AtSplit(data: seq<byte>, pos: nat, a: seq<byte>, b: seq<byte>)
    ensures At(data, pos, a + b) <==> At(data, pos, a) && At(data, pos + |a|, b)
  {
    if At(data, pos, a + b) {
      assert forall i :: 0 <= i < |a| ==> (a + b)[i] == a[i];
      assert forall i :: 0 <= i < |b| ==> (a + b)[|a| + i] == b[i];
    }
    if At(data, pos, a) && At(data, pos + |a|, b) {
      forall i | 0 <= i < |a + b|
        ensures data[pos + i] == (a + b)[i]
      {
        if i >= |a| {
          assert data[pos + |a| + (i - |a|)] == b[i - |a|];
        }
      }
    }
  }

  lemma AtTwo(data: seq<byte>, pos: nat, a: seq<byte>, b: seq<byte>, c: seq<byte>)
    ensures At(data, pos, a + b + c) <==> At(data, pos, a) && At(data, pos + |a|, b) && At(data, pos + |a| + |b|, c)
  {
    AtSplit(data, pos, a + b, c);
    AtSplit(data, pos, a, b);
  }

  lemma AtOnce(data: seq<byte>, pos: nat, n: nat, m: nat, k: nat)
    requires n < Pow256(k) && m < Pow256(k) && At(data, pos, LE(n, k)) && At(data, pos, LE(m, k))
    ensures n == m
  {
    AtSlice(data, pos, LE(n, k));
    AtSlice(data, pos, LE(m, k));
    FromLEOfLE(n, k);
    FromLEOfLE(m, k);
  }

  lemma StringAt(data: seq<byte>, pos: nat, s: seq<byte>)
    ensures At(data, pos, EncString(s)) <==> At(data, pos, LE(|s|, 8)) && At(data, pos + 8, s)
  {
    AtSplit(data, pos, LE(|s|, 8), s);
  }

  lemma ArrayAt(data: seq<byte>, pos: nat, a: Array)
    ensures At(data, pos, EncArray(a)) <==>
            At(data, pos, LE(ElemTypeOf(a), 4)) && At(data, pos + 4, LE(CountOf(a), 8)) &&
              At(data, pos + 12, EncItems(a))
  {
    AtTwo(data, pos, LE(ElemTypeOf(a), 4), LE(CountOf(a), 8), EncItems(a));
  }

  lemma EntryAt(data: seq<byte>, pos: nat, e: Entry)
    ensures var n := |EncString(e.key)|;
            At(data, pos, EncEntry(e)) <==>
            At(data, pos, EncString(e.key)) && At(data, pos + n, LE(TypeOf(e.value), 4)) &&
              At(data, pos + n + 4, EncPayload(e.value))
  {
    AtTwo(data, pos, EncString(e.key), LE(TypeOf(e.value), 4), EncPayload(e.value));
  }

  lemma FlatMore(data: seq<byte>, pos: nat, parts: seq<seq<byte>>, p: seq<byte>)
    ensures Flat(parts + [p]) == Flat(parts) + p
    ensures At(data, pos, Flat(parts + [p])) <==> At(data, pos, Flat(parts)) && At(data, pos + |Flat(parts)|, p)
  {
    assert (parts + [p])[..|parts + [p]| - 1] == parts;
    AtSplit(data, pos, Flat(parts), p);
  }

  // After the parts before the i-th comes the i-th.
  lemma {:induction false} FlatAt(data: seq<byte>, pos: nat, parts: seq<seq<byte>>, i: nat)
    requires i < |parts| && At(data, pos, Flat(parts))
    ensures At(data, pos + |Flat(parts[..i])|, parts[i])
    decreases |parts|
  {
    var n := |parts| - 1;
    assert parts[..n] + [parts[n]] == parts;
    FlatMore(data, pos, parts[..n], parts[n]);
    if i < n {
      FlatAt(data, pos, parts[..n], i);
      assert parts[..n][..i] == parts[..i];
    }
  }
}
