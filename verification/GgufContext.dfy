/** The native context length of a model file: what the metadata says, and the scan
    that stops as soon as it knows (internal/llm/llamacpp/gguf.go:
    ReadGGUFContextLength). */
module GgufContext {
  import opened Prelude
  import opened Gguf
  import opened GgufReader

  const MAX_INT32 := 2147483647

  function Clamp(n: nat): nat {
    if n > MAX_INT32 then MAX_INT32 else n
  }

  // ---------- what the metadata says ----------

  ghost predicate Declares(entries: seq<Entry>, arch: seq<byte>) {
    arch != [] && Entry(ARCHITECTURE, Str(arch)) in entries
  }

  ghost predicate Says(e: Entry, prefix: seq<byte>, n: nat) {
    e.key == prefix + SUFFIX && Unsigned(e.value) && NumberOf(e.value) == n
  }

  // prefix.context_length is an unsigned n.
  ghost predicate Holds(entries: seq<Entry>, prefix: seq<byte>, n: nat) {
    exists i :: 0 <= i < |entries| && Says(entries[i], prefix, n)
  }

  ghost predicate Sole(entries: seq<Entry>, prefix: seq<byte>, n: nat) {
    Holds(entries, prefix, n) && forall p, m :: Holds(entries, p, m) ==> p == prefix
  }

  // r is the clamped context length of the declared architecture, 0 if it has none;
  // without a declared architecture the sole one, else 0.
  ghost predicate Answers(entries: seq<Entry>, r: nat) {
    && (forall a, n: nat :: Declares(entries, a) && Holds(entries, a, n) ==>
          r == if n > 0x7FFF_FFFF then 0x7FFF_FFFF else n)
    && (forall a :: Declares(entries, a) && (forall n :: !Holds(entries, a, n)) ==> r == 0)
    && ((forall a :: !Declares(entries, a)) ==> Fallback(entries, r))
  }

  ghost predicate Fallback(entries: seq<Entry>, r: nat) {
    && (forall p, n: nat :: Sole(entries, p, n) ==> r == if n > 0x7FFF_FFFF then 0x7FFF_FFFF else n)
    && ((forall p, n :: !Sole(entries, p, n)) ==> r == 0)
  }

  // ---------- what the scan knows ----------

  datatype Known = Known(arch: seq<byte>, ctx: map<seq<byte>, nat>)

  predicate HasSuffix(key: seq<byte>) {
    |key| >= |SUFFIX| && key[|key| - |SUFFIX|..] == SUFFIX
  }

  function Prefix(key: seq<byte>): seq<byte>
    requires HasSuffix(key)
  {
    key[..|key| - |SUFFIX|]
  }

  lemma PrefixOf(key: seq<byte>, prefix: seq<byte>)
    ensures key == prefix + SUFFIX <==> HasSuffix(key) && Prefix(key) == prefix
  {
    if HasSuffix(key) {
      assert key == Prefix(key) + SUFFIX;
    }
  }

  function Learn(k: Known, e: Entry): Known {
    if e.key == ARCHITECTURE && e.value.Str? then k.(arch := e.value.s)
    else if HasSuffix(e.key) && Unsigned(e.value) then k.(ctx := k.ctx[Prefix(e.key) := NumberOf(e.value)])
    else k
  }

  function LearnAll(entries: seq<Entry>): Known {
    if entries == [] then Known([], map[]) else Learn(LearnAll(entries[..|entries| - 1]), entries[|entries| - 1])
  }

  predicate Settled(k: Known) {
    k.arch != [] && k.arch in k.ctx
  }

  lemma LearnMore(entries: seq<Entry>, e: Entry)
    ensures LearnAll(entries + [e]) == Learn(LearnAll(entries), e)
  {
    assert (entries + [e])[..|entries + [e]| - 1] == entries;
  }

  // The scan knows the declared architecture, and no other.
  lemma {:induction false} LearnedArch(entries: seq<Entry>)
    requires DistinctKeys(entries)
    ensures LearnAll(entries).arch != [] ==> Declares(entries, LearnAll(entries).arch)
    ensures forall a :: Declares(entries, a) ==> LearnAll(entries).arch == a
  {
    if entries != [] {
      var n := |entries| - 1;
      var before, e := entries[..n], entries[n];
      LearnedArch(before);
      assert before + [e] == entries;
      forall a | Declares(entries, a)
        ensures LearnAll(entries).arch == a
      {
        var i :| 0 <= i < |entries| && entries[i] == Entry(ARCHITECTURE, Str(a));
        if i < n {
          assert before[i] == entries[i] && Declares(before, a);
          assert entries[i].key != entries[n].key;
        }
      }
    }
  }

  lemma HoldsMore(before: seq<Entry>, e: Entry, p: seq<byte>, n: nat)
    ensures Holds(before + [e], p, n) <==> Holds(before, p, n) || Says(e, p, n)
  {
    var all := before + [e];
    if Holds(before, p, n) {
      var i :| 0 <= i < |before| && Says(before[i], p, n);
      assert all[i] == before[i];
    }
    if Says(e, p, n) {
      assert all[|before|] == e;
    }
    if Holds(all, p, n) {
      var i :| 0 <= i < |all| && Says(all[i], p, n);
      assert i < |before| ==> before[i] == all[i];
    }
  }

  // The scan knows exactly the context lengths the entries hold.
  lemma {:induction false} LearnedContext(entries: seq<Entry>, p: seq<byte>)
    requires DistinctKeys(entries)
    ensures p in LearnAll(entries).ctx ==> Holds(entries, p, LearnAll(entries).ctx[p])
    ensures forall n :: Holds(entries, p, n) ==> p in LearnAll(entries).ctx && LearnAll(entries).ctx[p] == n
  {
    if entries != [] {
      var before, e := entries[..|entries| - 1], entries[|entries| - 1];
      LearnedContext(before, p);
      assert before + [e] == entries;
      PrefixOf(e.key, p);
      if p in LearnAll(entries).ctx {
        HoldsMore(before, e, p, LearnAll(entries).ctx[p]);
      }
      forall n | Holds(entries, p, n)
        ensures p in LearnAll(entries).ctx && LearnAll(entries).ctx[p] == n
      {
        HoldsMore(before, e, p, n);
        if Holds(before, p, n) {
          var i :| 0 <= i < |before| && Says(before[i], p, n);
          assert entries[i].key != entries[|entries| - 1].key;
        }
      }
    }
  }

  lemma HoldsInMore(some: seq<Entry>, all: seq<Entry>, p: seq<byte>, n: nat)
    requires some <= all && Holds(some, p, n)
    ensures Holds(all, p, n)
  {
    var i :| 0 <= i < |some| && Says(some[i], p, n);
    assert all[i] == some[i];
  }

  // Once the scan knows, the rest of the entries cannot change the answer.
  lemma EarlyAnswer(some: seq<Entry>, all: seq<Entry>)
    requires some <= all && DistinctKeys(all) && Settled(LearnAll(some))
    ensures Answers(all, Final(LearnAll(some)))
  {
    var k := LearnAll(some);
    assert DistinctKeys(some);
    LearnedArch(some);
    LearnedContext(some, k.arch);
    HoldsInMore(some, all, k.arch, k.ctx[k.arch]);
    assert Declares(all, k.arch);
    LearnedArch(all);
    LearnedContext(all, k.arch);
  }

  lemma SoleKnown(entries: seq<Entry>, p: seq<byte>, n: nat)
    requires DistinctKeys(entries)
    ensures Sole(entries, p, n) <==> LearnAll(entries).ctx == map[p := n]
  {
    var ctx := LearnAll(entries).ctx;
    forall q
      ensures q in ctx ==> Holds(entries, q, ctx[q])
      ensures forall m :: Holds(entries, q, m) ==> q in ctx && ctx[q] == m
    {
      LearnedContext(entries, q);
    }
    if Sole(entries, p, n) {
      assert p in ctx && ctx[p] == n;
      forall q | q in ctx
        ensures q == p
      {
        assert Holds(entries, q, ctx[q]);
      }
    }
    if ctx == map[p := n] {
      assert p in ctx && Holds(entries, p, n);
      forall q, m | Holds(entries, q, m)
        ensures q == p
      {
        assert q in ctx;
      }
    }
  }

  function SoleOf(ctx: map<seq<byte>, nat>): nat {
    if exists p :: p in ctx && ctx == map[p := ctx[p]] then
      var p :| p in ctx && ctx == map[p := ctx[p]]; Clamp(ctx[p])
    else 0
  }

  // The answer once every entry has been read.
  function Final(k: Known): nat {
    if k.arch != [] then (if k.arch in k.ctx then Clamp(k.ctx[k.arch]) else 0) else SoleOf(k.ctx)
  }

  lemma FinalAnswer(entries: seq<Entry>)
    requires DistinctKeys(entries)
    ensures Answers(entries, Final(LearnAll(entries)))
  {
    var k := LearnAll(entries);
    LearnedArch(entries);
    LearnedContext(entries, k.arch);
    if k.arch == [] {
      FallbackAnswer(entries);
    }
  }

  lemma FallbackAnswer(entries: seq<Entry>)
    requires DistinctKeys(entries)
    ensures Fallback(entries, SoleOf(LearnAll(entries).ctx))
  {
    var ctx := LearnAll(entries).ctx;
    forall p, n
      ensures Sole(entries, p, n) ==> SoleOf(ctx) == Clamp(n)
    {
      SoleKnown(entries, p, n);
      if Sole(entries, p, n) {
        assert p in ctx && ctx[p] == n;
        assert forall q :: q in ctx ==> q == p;
      }
    }
    if p :| p in ctx && ctx == map[p := ctx[p]] {
      SoleKnown(entries, p, ctx[p]);
    }
  }

  // There is one answer.
  lemma OneAnswer(entries: seq<Entry>, r: nat, s: nat)
    requires DistinctKeys(entries) && Answers(entries, r) && Answers(entries, s)
    ensures r == s
  {
    var k := LearnAll(entries);
    LearnedArch(entries);
    LearnedContext(entries, k.arch);
    if k.arch == [] {
      if p, n :| Sole(entries, p, n) {
      }
    }
  }

  // Stopping early gives what a full scan gives.
  lemma EarlyIsFull(some: seq<Entry>, all: seq<Entry>)
    requires some <= all && DistinctKeys(all) && Settled(LearnAll(some))
    ensures Final(LearnAll(some)) == Final(LearnAll(all))
  {
    EarlyAnswer(some, all);
    FinalAnswer(all);
    OneAnswer(all, Final(LearnAll(some)), Final(LearnAll(all)));
  }

  // ---------- the scan ----------

  ghost predicate AllEntries(entries: seq<Entry>) {
    forall i :: 0 <= i < |entries| ==> ValidEntry(entries[i])
  }

  ghost predicate Fields(data: seq<byte>, total: nat) {
    At(data, 0, MAGIC) && At(data, 16, LE(total, 8)) && total <= MAX_KV_COUNT &&
      (At(data, 4, LE(2, 4)) || At(data, 4, LE(3, 4)))
  }

  // These entries are encoded behind a header.
  ghost predicate Laid(data: seq<byte>, entries: seq<Entry>) {
    AllEntries(entries) && At(data, 24, Flat(EncEntries(entries)))
  }

  // total entries, the first of them these, follow the header.
  ghost predicate Begins(data: seq<byte>, total: nat, entries: seq<Entry>) {
    Fields(data, total) && |entries| <= total && Laid(data, entries)
  }

  ghost predicate HeaderHere(data: seq<byte>, h: Header) {
    ValidHeader(h) && At(data, 0, EncHeader(h))
  }

  lemma HeaderParts(data: seq<byte>, h: Header)
    requires HeaderHere(data, h)
    ensures At(data, 0, MAGIC) && At(data, 4, LE(h.version, 4)) && At(data, 8, LE(h.tensors, 8)) &&
            At(data, 16, LE(|h.entries|, 8))
    ensures Begins(data, |h.entries|, h.entries)
  {
    var e := Flat(EncEntries(h.entries));
    AtTwo(data, 0, MAGIC + LE(h.version, 4) + LE(h.tensors, 8), LE(|h.entries|, 8), e);
    AtTwo(data, 0, MAGIC, LE(h.version, 4), LE(h.tensors, 8));
  }

  // The entry lists a file may be read as, one for each valid header it starts with.
  type Lists = seq<Entry> -> bool

  ghost predicate ListHere(data: seq<byte>, all: seq<Entry>) {
    exists h :: HeaderHere(data, h) && h.entries == all
  }

  ghost function ListsOf(data: seq<byte>): Lists {
    (all: seq<Entry>) => ListHere(data, all)
  }

  ghost predicate Counted(lists: Lists, total: nat) {
    forall all :: lists(all) ==> |all| == total
  }

  ghost predicate AllLaid(lists: Lists, data: seq<byte>) {
    forall all :: lists(all) ==> Laid(data, all)
  }

  ghost predicate Scanned(lists: Lists, entries: seq<Entry>) {
    forall all :: lists(all) ==> entries <= all
  }

  ghost predicate Answered(lists: Lists, r: nat) {
    forall all :: lists(all) && DistinctKeys(all) ==> Answers(all, r)
  }

  // The next entry of every list is this one, and there is a list only if it was read.
  ghost predicate Next(lists: Lists, entries: seq<Entry>, ok: bool, e: Entry) {
    forall all :: lists(all) && entries < all ==> ok && all[|entries|] == e
  }

  lemma ListsCount(data: seq<byte>, total: nat)
    requires forall h :: HeaderHere(data, h) ==> |h.entries| == total
    ensures Counted(ListsOf(data), total) && AllLaid(ListsOf(data), data)
  {
    forall all | ListsOf(data)(all)
      ensures |all| == total && Laid(data, all)
    {
      var h :| HeaderHere(data, h) && h.entries == all;
      HeaderParts(data, h);
    }
  }

  lemma EntriesTake(entries: seq<Entry>, i: nat)
    requires i <= |entries|
    ensures EncEntries(entries)[..i] == EncEntries(entries[..i])
  {
  }

  lemma EntriesAppend(entries: seq<Entry>, e: Entry)
    ensures EncEntries(entries + [e]) == EncEntries(entries) + [EncEntry(e)]
  {
  }

  lemma OneMoreLaid(data: seq<byte>, entries: seq<Entry>, e: Entry)
    requires Laid(data, entries) && ValidEntry(e) && At(data, 24 + |Flat(EncEntries(entries))|, EncEntry(e))
    ensures Laid(data, entries + [e])
    ensures |Flat(EncEntries(entries + [e]))| == |Flat(EncEntries(entries))| + |EncEntry(e)|
  {
    EntriesAppend(entries, e);
    FlatMore(data, 24, EncEntries(entries), EncEntry(e));
  }

  lemma OneMoreEntry(data: seq<byte>, total: nat, entries: seq<Entry>, e: Entry)
    requires Begins(data, total, entries) && |entries| < total && ValidEntry(e)
    requires At(data, 24 + |Flat(EncEntries(entries))|, EncEntry(e))
    ensures Begins(data, total, entries + [e])
    ensures |Flat(EncEntries(entries + [e]))| == |Flat(EncEntries(entries))| + |EncEntry(e)|
  {
    OneMoreLaid(data, entries, e);
  }

  lemma EncodedFront(all: seq<Entry>, entries: seq<Entry>)
    requires entries < all
    ensures |EncEntries(entries)| < |EncEntries(all)| && EncEntries(all)[..|EncEntries(entries)|] == EncEntries(entries)
    ensures EncEntries(all)[|EncEntries(entries)|] == EncEntry(all[|entries|])
  {
    assert all[..|entries|] == entries;
    EntriesTake(all, |entries|);
  }

  lemma NextBytes(data: seq<byte>, all: seq<Entry>, entries: seq<Entry>, here: nat)
    requires Laid(data, all) && entries < all && here == 24 + |Flat(EncEntries(entries))|
    ensures |EncEntries(entries)| < |EncEntries(all)| && At(data, here, EncEntries(all)[|EncEntries(entries)|])
  {
    EncodedFront(all, entries);
    NextPart(data, 24, EncEntries(all), EncEntries(entries), EncEntries(all)[|EncEntries(entries)|]);
  }

  lemma NextIsEntry(data: seq<byte>, all: seq<Entry>, entries: seq<Entry>, here: nat)
    requires AllEntries(all) && entries < all
    requires |EncEntries(entries)| < |EncEntries(all)| && At(data, here, EncEntries(all)[|EncEntries(entries)|])
    ensures EntryHere(data, here, all[|entries|])
  {
    EncodedFront(all, entries);
    EntryFrom(data, here, all[|entries|], EncEntries(all)[|EncEntries(entries)|]);
  }

  lemma EntryFrom(data: seq<byte>, here: nat, e: Entry, bytes: seq<byte>)
    requires ValidEntry(e) && bytes == EncEntry(e) && At(data, here, bytes)
    ensures EntryHere(data, here, e)
  {
  }

  // The next entry of a list begins after those scanned.
  lemma NextEntry(data: seq<byte>, all: seq<Entry>, entries: seq<Entry>, here: nat)
    requires Laid(data, all) && entries < all && here == 24 + |Flat(EncEntries(entries))|
    ensures EntryHere(data, here, all[|entries|])
  {
    NextBytes(data, all, entries, here);
    NextIsEntry(data, all, entries, here);
  }

  ghost predicate EntryHere(data: seq<byte>, pos: nat, e: Entry) {
    ValidEntry(e) && At(data, pos, EncEntry(e))
  }

  lemma EntryParts(data: seq<byte>, pos: nat, e: Entry)
    requires EntryHere(data, pos, e)
    ensures StringHere(data, pos, e.key)
    ensures TypeOf(e.value) < LIMIT32 && At(data, pos + |EncString(e.key)|, LE(TypeOf(e.value), 4))
    ensures ValueHere(data, pos + |EncString(e.key)| + 4, TypeOf(e.value), e.value)
  {
    EntryAt(data, pos, e);
  }

  lemma EntryWhole(data: seq<byte>, pos: nat, e: Entry)
    requires StringHere(data, pos, e.key) && At(data, pos + |EncString(e.key)|, LE(TypeOf(e.value), 4))
    requires ValueHere(data, pos + |EncString(e.key)| + 4, TypeOf(e.value), e.value)
    ensures EntryHere(data, pos, e) && |EncEntry(e)| == |EncString(e.key)| + 4 + |EncPayload(e.value)|
  {
    EntryAt(data, pos, e);
  }

  ghost predicate HeadIs(data: seq<byte>, here: nat, key: seq<byte>, typ: nat, e: Entry) {
    e.key == key && TypeOf(e.value) == typ && ValueHere(data, here, typ, e.value)
  }

  ghost predicate OnlyValue(data: seq<byte>, pos: nat, typ: nat, ok: bool, v: Value) {
    forall w :: ValueHere(data, pos, typ, w) ==> ok && w == v
  }

  lemma OnlyString(data: seq<byte>, pos: nat, ok: bool, s: seq<byte>)
    requires forall t :: StringHere(data, pos, t) ==> ok && t == s
    ensures OnlyValue(data, pos, TYPE_STRING, ok, Str(s))
  {
    forall w | ValueHere(data, pos, TYPE_STRING, w)
      ensures ok && w == Str(s)
    {
      assert StringHere(data, pos, w.s);
    }
  }

  lemma OnlyEntry(data: seq<byte>, start: nat, here: nat, key: seq<byte>, typ: nat, ok: bool, v: Value)
    requires forall w :: EntryHere(data, start, w) ==> HeadIs(data, here, key, typ, w)
    requires OnlyValue(data, here, typ, ok, v)
    ensures Only(data, start, ok, Entry(key, v))
  {
  }

  // The key of an entry and the type of its value.
  method ReadKey(g: Reader) returns (ok: bool, key: seq<byte>, typ: nat)
    requires g.Valid()
    modifies g
    ensures g.Valid()
    ensures ok ==>
              var n := |EncString(key)|;
              && g.pos == old(g.pos) + n + 4 && StringHere(g.data, old(g.pos), key)
              && typ < LIMIT32 && At(g.data, old(g.pos) + n, LE(typ, 4))
    ensures forall w :: EntryHere(g.data, old(g.pos), w) ==> ok && HeadIs(g.data, g.pos, key, typ, w)
  {
    ghost var start := g.pos;
    typ := 0;
    ok, key := g.ReadString();
    if ok {
      ok, typ := g.U32();
    }
    forall w | EntryHere(g.data, start, w)
      ensures ok && HeadIs(g.data, g.pos, key, typ, w)
    {
      EntryParts(g.data, start, w);
    }
  }

  // The value behind the key, and what it says of architecture or context length.
  method ReadValue(g: Reader, key: seq<byte>, typ: nat, arch: seq<byte>, ctx: map<seq<byte>, nat>)
    returns (ok: bool, arch': seq<byte>, ctx': map<seq<byte>, nat>, ghost v: Value)
    requires g.Valid()
    modifies g
    ensures g.Valid()
    ensures ok ==> ValueHere(g.data, old(g.pos), typ, v) && g.pos == old(g.pos) + |EncPayload(v)|
    ensures ok ==> Known(arch', ctx') == Learn(Known(arch, ctx), Entry(key, v))
    ensures OnlyValue(g.data, old(g.pos), typ, ok, v)
  {
    arch', ctx' := arch, ctx;
    if key == ARCHITECTURE && typ == TYPE_STRING {
      ghost var here := g.pos;
      ok, arch' := g.ReadString();
      v := Str(arch');
      OnlyString(g.data, here, ok, arch');
    } else if HasSuffix(key) {
      var usable, n;
      ok, usable, n, v := g.UintValue(typ);
      if ok && usable {
        ctx' := ctx[Prefix(key) := n];
      }
    } else {
      var unused, n;
      ok, unused, n, v := g.UintValue(typ);
    }
  }

  // One turn of the scan, up to the test whether both facts are known.
  method ReadEntry(g: Reader, arch: seq<byte>, ctx: map<seq<byte>, nat>)
    returns (ok: bool, arch': seq<byte>, ctx': map<seq<byte>, nat>, ghost e: Entry)
    requires g.Valid()
    modifies g
    ensures g.Valid()
    ensures ok ==> EntryHere(g.data, old(g.pos), e) && g.pos == old(g.pos) + |EncEntry(e)|
    ensures ok ==> Known(arch', ctx') == Learn(Known(arch, ctx), e)
    ensures Only(g.data, old(g.pos), ok, e)
  {
    ghost var start := g.pos;
    var key, typ;
    arch', ctx', e := arch, ctx, Entry([], Str([]));
    ok, key, typ := ReadKey(g);
    if !ok {
      return;
    }
    ghost var here := g.pos;
    ghost var v;
    ok, arch', ctx', v := ReadValue(g, key, typ, arch, ctx);
    e := Entry(key, v);
    OnlyEntry(g.data, start, here, key, typ, ok, v);
    if ok {
      EntryWhole(g.data, start, e);
    }
  }

  // Only this entry may be encoded here, and none if it was not read.
  ghost predicate Only(data: seq<byte>, pos: nat, ok: bool, e: Entry) {
    forall w :: EntryHere(data, pos, w) ==> ok && w == e
  }

  lemma NextIs(data: seq<byte>, all: seq<Entry>, entries: seq<Entry>, here: nat, ok: bool, e: Entry)
    requires Laid(data, all) && entries < all && here == 24 + |Flat(EncEntries(entries))| && Only(data, here, ok, e)
    ensures ok && all[|entries|] == e
  {
    NextEntry(data, all, entries, here);
  }

  lemma NextOfAll(lists: Lists, data: seq<byte>, entries: seq<Entry>, here: nat, ok: bool, e: Entry)
    requires AllLaid(lists, data) && here == 24 + |Flat(EncEntries(entries))| && Only(data, here, ok, e)
    ensures Next(lists, entries, ok, e)
  {
    forall all | lists(all) && entries < all
      ensures ok && all[|entries|] == e
    {
      NextIs(data, all, entries, here, ok, e);
    }
  }

  lemma ScannedMore(lists: Lists, total: nat, entries: seq<Entry>, ok: bool, e: Entry)
    requires Scanned(lists, entries) && Counted(lists, total) && |entries| < total && Next(lists, entries, ok, e)
    ensures Scanned(lists, entries + [e]) && forall all :: lists(all) ==> ok
  {
    forall all | lists(all)
      ensures ok && entries + [e] <= all
    {
      assert entries < all;
      assert all[|entries|] == e;
    }
  }

  lemma PrefixAnswers(all: seq<Entry>, entries: seq<Entry>)
    requires entries <= all && DistinctKeys(all)
    requires entries == all || Settled(LearnAll(entries))
    ensures Answers(all, Final(LearnAll(entries)))
  {
    if entries == all {
      FinalAnswer(all);
    } else {
      EarlyAnswer(entries, all);
    }
  }

  // Every list has the answer the scanned entries give.
  lemma ScanAnswers(lists: Lists, total: nat, entries: seq<Entry>)
    requires Scanned(lists, entries) && Counted(lists, total) && (|entries| == total || Settled(LearnAll(entries)))
    ensures Answered(lists, Final(LearnAll(entries)))
  {
    forall all | lists(all) && DistinctKeys(all)
      ensures Answers(all, Final(LearnAll(entries)))
    {
      assert entries <= all && |all| == total;
      if |entries| == total {
        assert entries == all;
      }
      PrefixAnswers(all, entries);
    }
  }

  // Neither these entries nor any fewer of them settle the answer.
  ghost predicate Unsettled(seen: seq<Entry>)
    decreases |seen|
  {
    !Settled(LearnAll(seen)) && (seen == [] || Unsettled(seen[..|seen| - 1]))
  }

  // The scan gave up at the first entry that settles the answer, if any.
  ghost predicate StoppedAt(total: nat, seen: seq<Entry>) {
    && |seen| <= total && (|seen| < total ==> Settled(LearnAll(seen)))
    && (seen == [] || Unsettled(seen[..|seen| - 1]))
  }

  lemma Without(seen: seq<Entry>, e: Entry)
    ensures (seen + [e])[..|seen + [e]| - 1] == seen
  {
  }

  // The scan stands after these entries.
  ghost predicate Scanning(data: seq<byte>, lists: Lists, total: nat, pos: nat, seen: seq<Entry>) {
    && Begins(data, total, seen) && pos == 24 + |Flat(EncEntries(seen))|
    && Counted(lists, total) && AllLaid(lists, data) && Scanned(lists, seen)
  }

  lemma NothingScanned(data: seq<byte>, lists: Lists, total: nat)
    requires Begins(data, total, []) && Counted(lists, total) && AllLaid(lists, data)
    ensures Scanning(data, lists, total, 24, []) && LearnAll([]) == Known([], map[]) && Unsettled([])
  {
    assert EncEntries([]) == [] && Flat([]) == [];
  }

  lemma ScanningMore(data: seq<byte>, lists: Lists, total: nat, here: nat, seen: seq<Entry>, ok: bool, e: Entry)
    requires Scanning(data, lists, total, here, seen) && |seen| < total && Only(data, here, ok, e) &&
             (ok ==> EntryHere(data, here, e))
    ensures forall all :: lists(all) ==> ok
    ensures ok ==> Scanning(data, lists, total, here + |EncEntry(e)|, seen + [e])
    ensures LearnAll(seen + [e]) == Learn(LearnAll(seen), e)
  {
    NextOfAll(lists, data, seen, here, ok, e);
    ScannedMore(lists, total, seen, ok, e);
    LearnMore(seen, e);
    if ok {
      OneMoreEntry(data, total, seen, e);
    }
  }

  method ReadHeader(g: Reader) returns (ok: bool, total: nat)
    requires g.Valid() && g.pos == 0
    modifies g
    ensures g.Valid()
    ensures ok ==> g.pos == 24 && Begins(g.data, total, [])
    ensures ok <==> exists t: nat :: Fields(g.data, t)
    ensures forall h :: HeaderHere(g.data, h) ==> ok && |h.entries| == total
  {
    forall h | HeaderHere(g.data, h)
      ensures At(g.data, 0, MAGIC) && At(g.data, 4, LE(h.version, 4)) && At(g.data, 8, LE(h.tensors, 8)) &&
              At(g.data, 16, LE(|h.entries|, 8))
    {
      HeaderParts(g.data, h);
    }
    total := 0;
    var magic;
    ok, magic := g.Full(4);
    AtSlice(g.data, 0, MAGIC);
    if ok {
      AtSlice(g.data, 0, magic);
    }
    if !ok || magic != MAGIC {
      return false, 0;
    }
    var version;
    ok, version := g.U32();
    if !ok || version < 2 || version > 3 {
      return false, 0;
    }
    var tensors;
    ok, tensors := g.U64();
    if !ok {
      return;
    }
    ok, total := g.U64();
    if !ok || total > MAX_KV_COUNT {
      return false, total;
    }
    assert EncEntries([]) == [] && Flat([]) == [];
  }

  // The loop over the entries.
  method Scan(g: Reader, kvCount: nat, ghost lists: Lists) returns (r: Option<nat>, ghost seen: seq<Entry>)
    requires g.Valid() && Scanning(g.data, lists, kvCount, g.pos, [])
    modifies g
    ensures r.Some? ==> Begins(g.data, kvCount, seen) && StoppedAt(kvCount, seen) && r.value == Final(LearnAll(seen))
    ensures forall all :: lists(all) ==> r.Some?
    ensures r.Some? ==> Answered(lists, r.value)
  {
    var arch: seq<byte> := [];
    var ctx: map<seq<byte>, nat> := map[];
    seen := [];
    var i := 0;
    while i < kvCount
      invariant g.Valid() && |seen| == i <= kvCount
      invariant Scanning(g.data, lists, kvCount, g.pos, seen) && Known(arch, ctx) == LearnAll(seen) && Unsettled(seen)
    {
      ghost var here := g.pos;
      ghost var e;
      var ok;
      ok, arch, ctx, e := ReadEntry(g, arch, ctx);
      ScanningMore(g.data, lists, kvCount, here, seen, ok, e);
      if !ok {
        return None, seen;
      }
      i := i + 1;
      Without(seen, e);
      seen := seen + [e];
      if arch != [] && arch in ctx {
        ScanAnswers(lists, kvCount, seen);
        return Some(Clamp(ctx[arch])), seen;
      }
    }
    ScanAnswers(lists, kvCount, seen);
    r := Some(LastResort(arch, ctx));
  }

  // After the last entry: nothing if the architecture has no value, else the sole one.
  function LastResort(arch: seq<byte>, ctx: map<seq<byte>, nat>): (r: nat)
    requires arch == [] || arch !in ctx
    ensures r == Final(Known(arch, ctx))
  {
    if arch != [] then 0
    else if |ctx| == 1 then
      SoleEntry(ctx);
      var prefix :| prefix in ctx; Clamp(ctx[prefix])
    else
      NotSole(ctx); 0
  }

  // From a file that starts with a valid header of distinct keys: what it says. Fails
  // only on a file that starts with no valid header.
  method ReadContextLength(data: seq<byte>) returns (r: Option<nat>, ghost total: nat, ghost seen: seq<Entry>)
    ensures r.Some? ==> Begins(data, total, seen) && StoppedAt(total, seen) && r.value == Final(LearnAll(seen))
    ensures forall h :: HeaderHere(data, h) ==> r.Some?
    ensures forall h :: HeaderHere(data, h) && DistinctKeys(h.entries) ==> r.Some? && Answers(h.entries, r.value)
  {
    var g := new Reader(data);
    var ok, kvCount := ReadHeader(g);
    total, seen, r := kvCount, [], None;
    if ok {
      ListsCount(data, kvCount);
      NothingScanned(data, ListsOf(data), kvCount);
      r, seen := Scan(g, kvCount, ListsOf(data));
      forall h | HeaderHere(data, h)
        ensures ListsOf(data)(h.entries)
      {
      }
    }
  }

  lemma SoleEntry(ctx: map<seq<byte>, nat>)
    requires |ctx| == 1
    ensures exists p :: p in ctx
    ensures forall p, q :: p in ctx && q in ctx ==> p == q
    ensures forall p :: p in ctx ==> ctx == map[p := ctx[p]] && SoleOf(ctx) == Clamp(ctx[p])
  {
    assert ctx.Keys != {};
    forall p | p in ctx
      ensures ctx == map[p := ctx[p]]
    {
      assert |ctx.Keys - {p}| == 0;
      assert ctx.Keys == {p};
    }
  }

  lemma NotSole(ctx: map<seq<byte>, nat>)
    requires |ctx| != 1
    ensures SoleOf(ctx) == 0
  {
  }

  // ---------- what gives no length ----------

  const INT32 := 5
  const UINT32 := 4

  // An architecture whose length is a signed integer, whatever its bytes say.
  function SignedLength(arch: seq<byte>, raw: seq<byte>): seq<Entry> {
    [Entry(ARCHITECTURE, Str(arch)), Entry(arch + SUFFIX, Scalar(INT32, raw))]
  }

  lemma SignedGivesNone(arch: seq<byte>, raw: seq<byte>, r: nat)
    requires arch != []
    ensures Answers(SignedLength(arch, raw), r) <==> r == 0
  {
    var entries := SignedLength(arch, raw);
    assert entries[0] == Entry(ARCHITECTURE, Str(arch)) && Declares(entries, arch);
    forall p, n
      ensures !Holds(entries, p, n)
    {
      assert !Says(entries[0], p, n) && !Says(entries[1], p, n);
    }
  }

  // No architecture, and two lengths that agree.
  function SameLength(p: seq<byte>, q: seq<byte>, raw: seq<byte>): seq<Entry> {
    [Entry(p + SUFFIX, Scalar(UINT32, raw)), Entry(q + SUFFIX, Scalar(UINT32, raw))]
  }

  lemma AgreeingGiveNone(p: seq<byte>, q: seq<byte>, raw: seq<byte>, r: nat)
    requires p != q
    ensures Answers(SameLength(p, q, raw), r) <==> r == 0
  {
    var entries, n := SameLength(p, q, raw), FromLE(raw);
    assert Says(entries[0], p, n) && Says(entries[1], q, n);
    assert Holds(entries, p, n) && Holds(entries, q, n);
    forall a
      ensures !Declares(entries, a)
    {
      assert !entries[0].value.Str? && !entries[1].value.Str?;
    }
  }
}
