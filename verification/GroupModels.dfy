/** Grouping the shards of split models (internal/llm/llamacpp/download.go:
    groupModels). Lower-casing a name is the caller's function. */
module GroupModels {
  import opened Prelude
  import opened Sorting
  import Text

  datatype File = File(name: string, blob: int)

  // What the split pattern captures; both numbers have five digits.
  datatype Shard = Shard(prefix: string, index: string, total: string)

  datatype GroupKey = Whole(name: string) | Split(prefix: string, total: string)

  datatype Group = Group(key: GroupKey, files: seq<File>, primary: string, split: bool, display: string)

  datatype GroupError = InvalidSplit | Incomplete

  type Lower = string -> string

  // ---------- the pattern ----------

  predicate IsDigit(c: char) {
    '0' <= c <= '9'
  }

  predicate Digits(s: string) {
    forall i :: 0 <= i < |s| ==> IsDigit(s[i])
  }

  // Either case of a lower-case letter.
  predicate Folds(c: char, low: char, up: char) {
    c == low || c == up
  }

  predicate IsOf(s: string) {
    |s| == 4 && s[0] == '-' && Folds(s[1], 'o', 'O') && Folds(s[2], 'f', 'F') && s[3] == '-'
  }

  predicate IsExt(s: string) {
    |s| == 5 && s[0] == '.' && Folds(s[1], 'g', 'G') && Folds(s[2], 'g', 'G') && Folds(s[3], 'u', 'U') &&
      Folds(s[4], 'f', 'F')
  }

  // name is prefix-index-of-total.gguf
  predicate Matches(name: string, prefix: string, index: string, of: string, total: string, ext: string) {
    && name == prefix + "-" + index + of + total + ext
    && '\n' !in prefix && |index| == 5 && Digits(index) && IsOf(of) && |total| == 5 && Digits(total) && IsExt(ext)
  }

  function Parse(name: string): Option<Shard> {
    if |name| < 20 then None
    else
      var n := |name| - 20;
      var prefix, index, of, total, ext := name[..n], name[n + 1..n + 6], name[n + 6..n + 10], name[n + 10..n + 15],
          name[n + 15..];
      if name[n] == '-' && '\n' !in prefix && Digits(index) && IsOf(of) && Digits(total) && IsExt(ext)
      then Some(Shard(prefix, index, total)) else None
  }

  ghost predicate FiveDigits(name: string, i: nat)
    requires i + 5 <= |name|
  {
    forall j :: i <= j < i + 5 ==> '0' <= name[j] <= '9'
  }

  // A prefix on one line, then -ddddd-of-ddddd.gguf, in either case.
  lemma ParseMeans(name: string)
    ensures |name| < 20 ==> Parse(name).None?
    ensures |name| >= 20 ==>
              var n := |name| - 20;
              && (Parse(name).Some? <==>
                   && '\n' !in name[..n] && FiveDigits(name, n + 1) && FiveDigits(name, n + 10)
                   && name[n] == name[n + 6] == name[n + 9] == '-' && name[n + 15] == '.'
                   && name[n + 7] in "oO" && name[n + 8] in "fF" && name[n + 16] in "gG" && name[n + 17] in "gG"
                   && name[n + 18] in "uU" && name[n + 19] in "fF")
              && (Parse(name).Some? ==>
                   Parse(name).value == Shard(name[..n], name[n + 1..n + 6], name[n + 10..n + 15]))
  {
    if |name| >= 20 {
      var n := |name| - 20;
      DigitsAt(name, n + 1);
      DigitsAt(name, n + 10);
      var of, ext := name[n + 6..n + 10], name[n + 15..];
      assert of[0] == name[n + 6] && of[1] == name[n + 7] && of[2] == name[n + 8] && of[3] == name[n + 9];
      assert ext[0] == name[n + 15] && ext[1] == name[n + 16] && ext[2] == name[n + 17] && ext[3] == name[n + 18] &&
             ext[4] == name[n + 19];
    }
  }

  lemma DigitsAt(name: string, i: nat)
    requires i + 5 <= |name|
    ensures Digits(name[i..i + 5]) <==> FiveDigits(name, i)
  {
    var s := name[i..i + 5];
    assert forall j :: 0 <= j < 5 ==> s[j] == name[i + j];
    assert forall j :: i <= j < i + 5 ==> name[j] == s[j - i];
  }

  // The parts have fixed lengths, so a name matches in one way.
  lemma ParseMatches(name: string, prefix: string, index: string, of: string, total: string, ext: string)
    requires Matches(name, prefix, index, of, total, ext)
    ensures Parse(name) == Some(Shard(prefix, index, total))
  {
    var n := |prefix|;
    assert name == prefix + ("-" + index + of + total + ext);
    assert name[..n] == prefix && name[n] == '-';
    assert name[n + 1..n + 6] == index;
    assert name[n + 6..n + 10] == of;
    assert name[n + 10..n + 15] == total;
    assert name[n + 15..] == ext;
  }

  lemma ParsedMatches(name: string) returns (of: string, ext: string)
    requires Parse(name).Some?
    ensures var s := Parse(name).value; Matches(name, s.prefix, s.index, of, s.total, ext)
  {
    var n := |name| - 20;
    of, ext := name[n + 6..n + 10], name[n + 15..];
    assert name == name[..n] + [name[n]] + name[n + 1..n + 6] + name[n + 6..n + 10] + name[n + 10..n + 15] +
           name[n + 15..];
  }

  // ---------- five-digit text order is numeric order ----------

  function Pow10(k: nat): nat {
    if k == 0 then 1 else 10 * Pow10(k - 1)
  }

  function DigitOf(c: char): nat
    requires IsDigit(c)
  {
    c as int - '0' as int
  }

  // strconv.Atoi
  function Number(s: string): nat
    requires Digits(s)
  {
    if s == "" then 0 else DigitOf(s[0]) * Pow10(|s| - 1) + Number(s[1..])
  }

  lemma {:induction false} NumberMeans(s: string, c: char)
    requires Digits(s) && '0' <= c <= '9'
    ensures Number("") == 0 && Digits(s + [c]) && Number(s + [c]) == 10 * Number(s) + (c as int - 48)
  {
    if s == "" {
      assert ("" + [c])[1..] == "";
    } else {
      NumberMeans(s[1..], c);
      assert (s + [c])[1..] == s[1..] + [c];
      TenTimes(DigitOf(s[0]), Pow10(|s| - 1));
    }
  }

  lemma TenTimes(d: nat, p: nat)
    ensures d * (10 * p) == 10 * (d * p)
  {
  }

  lemma {:induction false} NumberBound(s: string)
    requires Digits(s)
    ensures Number(s) < Pow10(|s|)
  {
    if s != "" {
      NumberBound(s[1..]);
      Carry(DigitOf(s[0]), Pow10(|s| - 1), Number(s[1..]));
    }
  }

  lemma Carry(d: nat, p: nat, rest: nat)
    requires d <= 9 && rest < p
    ensures d * p + rest < 10 * p
  {
    assert d * p <= 9 * p;
  }

  lemma Outweighs(d: nat, e: nat, p: nat, r: nat, s: nat)
    requires d < e && r < p
    ensures d * p + r < e * p + s
  {
    assert (d + 1) * p <= e * p;
  }

  lemma {:induction false} TextIsNumeric(a: string, b: string)
    requires Digits(a) && Digits(b) && |a| == |b|
    ensures Text.Leq(a, b) <==> Number(a) <= Number(b)
    ensures Number(a) == Number(b) ==> a == b
  {
    if a != "" {
      TextIsNumeric(a[1..], b[1..]);
      NumberBound(a[1..]);
      NumberBound(b[1..]);
      var p := Pow10(|a| - 1);
      if a[0] < b[0] {
        Outweighs(DigitOf(a[0]), DigitOf(b[0]), p, Number(a[1..]), Number(b[1..]));
      } else if b[0] < a[0] {
        Outweighs(DigitOf(b[0]), DigitOf(a[0]), p, Number(b[1..]), Number(a[1..]));
      } else {
        assert a == [a[0]] + a[1..] && b == [b[0]] + b[1..];
      }
    }
  }

  lemma {:induction false} LeqBehind(p: string, a: string, b: string)
    ensures Text.Leq(p + a, p + b) <==> Text.Leq(a, b)
  {
    if p == "" {
      assert p + a == a && p + b == b;
    } else {
      LeqBehind(p[1..], a, b);
      assert [p[0]] + p[1..] == p;
      Regroup([p[0]], p[1..], a);
      Regroup([p[0]], p[1..], b);
    }
  }

  lemma {:induction false} LeqBefore(a: string, b: string, rest: string)
    requires |a| == |b|
    ensures Text.Leq(a + rest, b + rest) <==> Text.Leq(a, b)
  {
    if a == "" {
      assert a + rest == rest == b + rest;
      Text.LeqTotal(rest, rest);
    } else {
      LeqBefore(a[1..], b[1..], rest);
      assert (a + rest)[1..] == a[1..] + rest && (b + rest)[1..] == b[1..] + rest;
    }
  }

  function NameOf(prefix: string, index: string, of: string, total: string, ext: string): string {
    prefix + "-" + index + of + total + ext
  }

  lemma NameParts(prefix: string, index: string, of: string, total: string, ext: string)
    ensures NameOf(prefix, index, of, total, ext) == (prefix + "-") + (index + (of + total + ext))
  {
    Regroup(of, total, ext);
    Regroup(index, of + total, ext);
    Regroup(index, of, total);
    Regroup(prefix + "-", index, of);
    Regroup(prefix + "-", index + of, total);
    Regroup(prefix + "-", index + of + total, ext);
  }

  // Names that differ in the index alone stand in the order of their indices.
  lemma NamesInOrder(prefix: string, i: string, j: string, of: string, total: string, ext: string)
    requires Digits(i) && Digits(j) && |i| == |j|
    ensures Text.Leq(NameOf(prefix, i, of, total, ext), NameOf(prefix, j, of, total, ext)) <==> Number(i) <= Number(j)
  {
    NameParts(prefix, i, of, total, ext);
    NameParts(prefix, j, of, total, ext);
    LeqBehind(prefix + "-", i + (of + total + ext), j + (of + total + ext));
    LeqBefore(i, j, of + total + ext);
    TextIsNumeric(i, j);
  }

  // ---------- collecting ----------

  // The index and total of a shard's name.
  function IndexOf(name: string): nat {
    if Parse(name).Some? then Number(Parse(name).value.index) else 0
  }

  function TotalOf(name: string): nat {
    if Parse(name).Some? then Number(Parse(name).value.total) else 0
  }

  predicate ValidName(name: string) {
    Parse(name).Some? ==> TotalOf(name) >= 1 && 1 <= IndexOf(name) <= TotalOf(name)
  }

  function KeyOf(name: string, lower: Lower): GroupKey {
    match Parse(name)
    case None => Whole(lower(name))
    case Some(s) => Split(lower(s.prefix), s.total)
  }

  // What is made of a name that is no shard's, and of one that is.
  lemma NamesMean(name: string, lower: Lower)
    ensures Parse(name).None? ==> ValidName(name) && KeyOf(name, lower) == Whole(lower(name)) && DisplayOf(name) == name
    ensures Parse(name).Some? ==>
              var s := Parse(name).value;
              && (ValidName(name) <==> 1 <= Number(s.index) <= Number(s.total))
              && IndexOf(name) == Number(s.index) && TotalOf(name) == Number(s.total)
              && KeyOf(name, lower) == Split(lower(s.prefix), s.total)
              && DisplayOf(name) == s.prefix + "-*-of-" + s.total + ".gguf"
  {
  }

  // How files are keyed, and which one leads its group.
  type Keyed = File -> GroupKey

  type Lead = File -> bool

  // The files of the listing with this key, in order.
  function With(files: seq<File>, key: GroupKey, keyed: Keyed): seq<File> {
    if files == [] then []
    else
      With(files[..|files| - 1], key, keyed) +
      (if keyed(files[|files| - 1]) == key then [files[|files| - 1]] else [])
  }

  // Of whole files the last, of shards all.
  function FilesOf(fs: seq<File>, key: GroupKey): seq<File> {
    if key.Whole? && fs != [] then [fs[|fs| - 1]] else fs
  }

  // The last file that leads, of whole files the last.
  function PrimaryOf(fs: seq<File>, key: GroupKey, lead: Lead): string {
    if fs == [] then ""
    else if key.Whole? || lead(fs[|fs| - 1]) then fs[|fs| - 1].name
    else PrimaryOf(fs[..|fs| - 1], key, lead)
  }

  // A further file of the key: a whole file replaces the group's, a shard joins it, and
  // leads it if it is the first.
  lemma OneMoreFile(files: seq<File>, f: File, key: GroupKey, lower: Lower)
    ensures var keyed, lead := KeyedBy(lower), LeadShard();
            var fs := With(files, key, keyed);
            && With([], key, keyed) == []
            && With(files + [f], key, keyed) == (if KeyOf(f.name, lower) == key then fs + [f] else fs)
            && (key.Whole? ==> FilesOf(fs + [f], key) == [f] && PrimaryOf(fs + [f], key, lead) == f.name)
            && (key.Split? ==>
                 && FilesOf(fs + [f], key) == fs + [f] && PrimaryOf([], key, lead) == ""
                 && PrimaryOf(fs + [f], key, lead) ==
                    if IndexOf(f.name) == 1 then f.name else PrimaryOf(fs, key, lead))
  {
    var fs := With(files, key, KeyedBy(lower));
    assert (files + [f])[..|files|] == files && (fs + [f])[..|fs|] == fs;
  }

  // The groups once the listing is read.
  ghost predicate Collected(m: map<GroupKey, Group>, files: seq<File>, keyed: Keyed, lead: Lead) {
    forall key :: CollectedAt(m, key, files, keyed, lead)
  }

  ghost predicate CollectedAt(m: map<GroupKey, Group>, key: GroupKey, files: seq<File>, keyed: Keyed, lead: Lead) {
    var fs := With(files, key, keyed);
    (key in m <==> fs != []) && (key in m ==> Gathered(m[key], key, fs, lead))
  }

  ghost predicate Gathered(g: Group, key: GroupKey, fs: seq<File>, lead: Lead) {
    && g.key == key && g.split == key.Split? && g.files == FilesOf(fs, key) && g.primary == PrimaryOf(fs, key, lead)
    && Displays(g, fs)
  }

  // A group is shown under the name of its whole file, or of its first shard with a star.
  ghost predicate Displays(g: Group, fs: seq<File>) {
    fs != [] && g.display == DisplayOf(if g.split then fs[0].name else fs[|fs| - 1].name)
  }

  // One file of the listing: a whole file makes its group anew, a shard joins it.
  function Gather(m: map<GroupKey, Group>, key: GroupKey, f: File, leads: bool, display: string): map<GroupKey, Group> {
    match key
    case Whole(_) => m[key := Group(key, [f], f.name, false, display)]
    case Split(_, _) =>
      var g := if key in m then m[key] else Group(key, [], "", true, display);
      m[key := g.(files := g.files + [f], primary := if leads then f.name else g.primary)]
  }

  lemma GatherAt(m: map<GroupKey, Group>, files: seq<File>, f: File, display: string, keyed: Keyed, lead: Lead,
                 key: GroupKey)
    requires CollectedAt(m, key, files, keyed, lead) && display == DisplayOf(f.name)
    ensures CollectedAt(Gather(m, keyed(f), f, lead(f), display), key, files + [f], keyed, lead)
  {
    var fs, more := With(files, key, keyed), Gather(m, keyed(f), f, lead(f), display);
    assert (files + [f])[..|files|] == files && (fs + [f])[..|fs|] == fs;
    if keyed(f) != key {
      assert With(files + [f], key, keyed) == fs;
      assert key in more <==> key in m;
    } else if key.Whole? {
      assert Gathered(more[key], key, fs + [f], lead);
    } else {
      assert fs == [] ==> fs + [f] == [f];
      assert Gathered(more[key], key, fs + [f], lead);
    }
  }

  lemma GatherMore(m: map<GroupKey, Group>, files: seq<File>, f: File, display: string, keyed: Keyed, lead: Lead)
    requires Collected(m, files, keyed, lead) && display == DisplayOf(f.name)
    ensures Collected(Gather(m, keyed(f), f, lead(f), display), files + [f], keyed, lead)
  {
    forall key
      ensures CollectedAt(Gather(m, keyed(f), f, lead(f), display), key, files + [f], keyed, lead)
    {
      assert CollectedAt(m, key, files, keyed, lead);
      GatherAt(m, files, f, display, keyed, lead, key);
    }
  }

  function KeyedBy(lower: Lower): Keyed {
    (f: File) => KeyOf(f.name, lower)
  }

  function LeadShard(): Lead {
    (f: File) => IndexOf(f.name) == 1
  }

  function DisplayOf(name: string): string {
    match Parse(name)
    case None => name
    case Some(s) => s.prefix + "-*-of-" + s.total + ".gguf"
  }

  ghost predicate AllValid(files: seq<File>) {
    forall i :: 0 <= i < |files| ==> ValidName(files[i].name)
  }

  method Collect(files: seq<File>, lower: Lower) returns (r: Option<map<GroupKey, Group>>)
    ensures r.None? <==> !AllValid(files)
    ensures r.Some? ==> Collected(r.value, files, KeyedBy(lower), LeadShard())
  {
    var groups: map<GroupKey, Group> := map[];
    for i := 0 to |files|
      invariant AllValid(files[..i]) && Collected(groups, files[..i], KeyedBy(lower), LeadShard())
    {
      assert files[..i + 1] == files[..i] + [files[i]];
      var f := files[i];
      if Parse(f.name).Some? {
        if TotalOf(f.name) < 1 || IndexOf(f.name) < 1 || IndexOf(f.name) > TotalOf(f.name) {
          return None;
        }
      }
      GatherMore(groups, files[..i], f, DisplayOf(f.name), KeyedBy(lower), LeadShard());
      groups := Gather(groups, KeyOf(f.name, lower), f, IndexOf(f.name) == 1, DisplayOf(f.name));
    }
    assert files[..|files|] == files;
    r := Some(groups);
  }

  // ---------- checking a group ----------

  predicate ByName(a: File, b: File) {
    Text.Leq(a.name, b.name)
  }

  lemma ByNameIsOrder()
    ensures TotalPreorder(ByName)
  {
    Text.LeqIsOrder();
  }

  // As many files as the first one's total, numbered 1 to that total in order.
  ghost predicate InSequence(fs: seq<File>) {
    && fs != [] && |fs| == TotalOf(fs[0].name)
    && forall i :: 0 <= i < |fs| ==> IndexOf(fs[i].name) == i + 1
  }

  // Sorts the group's files; a split group must be complete and in sequence.
  method CheckGroup(g: Group) returns (r: Option<Group>)
    requires g.files != []
    ensures exists s :: Sorted(s, ByName) && multiset(s) == multiset(g.files) && Checked(g, s, r)
  {
    ByNameIsOrder();
    var sorted := Sort(g.files, ByName);
    r := Some(g.(files := sorted));
    if g.split {
      var total := TotalOf(sorted[0].name);
      if |sorted| != total || g.primary == "" {
        assert Checked(g, sorted, None);
        return None;
      }
      for i := 0 to |sorted|
        invariant forall j :: 0 <= j < i ==> IndexOf(sorted[j].name) == j + 1
      {
        if IndexOf(sorted[i].name) != i + 1 {
          assert Checked(g, sorted, None);
          return None;
        }
      }
    }
    assert Checked(g, sorted, r);
  }

  // The outcome for a group whose files, sorted, are s.
  ghost predicate Checked(g: Group, s: seq<File>, r: Option<Group>) {
    if g.split && !(InSequence(s) && g.primary != "") then r.None? else r == Some(g.(files := s))
  }

  // ---------- the listing ----------

  // The accepted groups: one per key of the listing, its files sorted; a split group
  // is in sequence.
  ghost predicate Grouped(files: seq<File>, out: seq<Group>, lower: Lower) {
    && AllGroups(files, out, lower)
    && (forall i, j :: 0 <= i < j < |out| ==> out[i].key != out[j].key)
    && forall key :: With(files, key, KeyedBy(lower)) != [] ==> HasKey(out, key)
  }

  ghost predicate AllGroups(files: seq<File>, out: seq<Group>, lower: Lower) {
    forall i :: 0 <= i < |out| ==> GroupOf(files, out[i], lower)
  }

  ghost predicate HasKey(out: seq<Group>, key: GroupKey) {
    exists i :: 0 <= i < |out| && out[i].key == key
  }

  ghost predicate GroupOf(files: seq<File>, g: Group, lower: Lower) {
    var fs := With(files, g.key, KeyedBy(lower));
    && Displays(g, fs) && g.split == g.key.Split?
    && multiset(g.files) == multiset(FilesOf(fs, g.key)) && Sorted(g.files, ByName)
    && g.primary == PrimaryOf(fs, g.key, LeadShard())
    && (g.split ==> InSequence(g.files) && g.primary != "")
  }

  predicate ByDisplay(a: Group, b: Group) {
    Text.Leq(a.display, b.display)
  }

  lemma ByDisplayIsOrder()
    ensures TotalPreorder(ByDisplay)
  {
    Text.LeqIsOrder();
  }

  // Some group is not complete and in sequence, however its files are sorted.
  ghost predicate SomeBroken(files: seq<File>, lower: Lower) {
    exists key, s :: Broken(files, key, s, lower)
  }

  ghost predicate Broken(files: seq<File>, key: GroupKey, s: seq<File>, lower: Lower) {
    var fs := With(files, key, KeyedBy(lower));
    && key.Split? && fs != [] && Sorted(s, ByName) && multiset(s) == multiset(fs)
    && !(InSequence(s) && PrimaryOf(fs, key, LeadShard()) != "")
  }

  // The groups put out are those of the keys no longer left, each once.
  ghost predicate KeysDone(keys: set<GroupKey>, left: set<GroupKey>, out: seq<Group>) {
    && left <= keys
    && (forall i :: 0 <= i < |out| ==> out[i].key in keys && out[i].key !in left)
    && (forall i, j :: 0 <= i < j < |out| ==> out[i].key != out[j].key)
    && forall key :: key in keys && key !in left ==> HasKey(out, key)
  }

  lemma KeysMore(keys: set<GroupKey>, left: set<GroupKey>, out: seq<Group>, g: Group)
    requires KeysDone(keys, left, out) && g.key in left
    ensures KeysDone(keys, left - {g.key}, out + [g])
  {
    var more := out + [g];
    forall key | key in keys && key !in left - {g.key}
      ensures HasKey(more, key)
    {
      if key == g.key {
        assert more[|out|].key == key;
      } else {
        var i :| 0 <= i < |out| && out[i].key == key;
        assert more[i].key == key;
      }
    }
  }

  lemma OneChecked(m: map<GroupKey, Group>, files: seq<File>, lower: Lower, key: GroupKey, s: seq<File>,
                   r: Option<Group>)
    requires Collected(m, files, KeyedBy(lower), LeadShard()) && key in m
    requires Sorted(s, ByName) && multiset(s) == multiset(m[key].files) && Checked(m[key], s, r)
    ensures r.Some? ==> r.value.key == key && GroupOf(files, r.value, lower)
    ensures r.None? ==> Broken(files, key, s, lower)
  {
    assert CollectedAt(m, key, files, KeyedBy(lower), LeadShard());
  }

  lemma GroupsMore(files: seq<File>, out: seq<Group>, g: Group, lower: Lower)
    requires AllGroups(files, out, lower) && GroupOf(files, g, lower)
    ensures AllGroups(files, out + [g], lower)
  {
  }

  // One group of the map.
  method CheckKey(m: map<GroupKey, Group>, key: GroupKey, ghost files: seq<File>, ghost lower: Lower)
    returns (r: Option<Group>)
    requires Collected(m, files, KeyedBy(lower), LeadShard()) && key in m
    ensures r.Some? ==> r.value.key == key && GroupOf(files, r.value, lower)
    ensures r.None? ==> SomeBroken(files, lower)
  {
    assert CollectedAt(m, key, files, KeyedBy(lower), LeadShard());
    r := CheckGroup(m[key]);
    ghost var s :| Sorted(s, ByName) && multiset(s) == multiset(m[key].files) && Checked(m[key], s, r);
    OneChecked(m, files, lower, key, s, r);
  }

  // The map's groups, in whatever order, each checked.
  method CheckAll(m: map<GroupKey, Group>, files: seq<File>, lower: Lower) returns (r: Option<seq<Group>>)
    requires Collected(m, files, KeyedBy(lower), LeadShard())
    ensures r.Some? ==> KeysDone(m.Keys, {}, r.value) && AllGroups(files, r.value, lower)
    ensures r.None? ==> SomeBroken(files, lower)
  {
    var keys := m.Keys;
    var left, out: seq<Group> := keys, [];
    while left != {}
      invariant KeysDone(keys, left, out) && AllGroups(files, out, lower)
      decreases left
    {
      var key :| key in left;
      var checked := CheckKey(m, key, files, lower);
      if checked.None? {
        return None;
      }
      KeysMore(keys, left, out, checked.value);
      GroupsMore(files, out, checked.value, lower);
      left, out := left - {key}, out + [checked.value];
    }
    r := Some(out);
  }

  lemma ValidMeans(files: seq<File>)
    ensures AllValid(files) <==>
            !exists f :: f in files && Parse(f.name).Some? &&
              var s := Parse(f.name).value; !(1 <= Number(s.index) <= Number(s.total))
  {
    if AllValid(files) {
      forall f | f in files
        ensures ValidName(f.name)
      {
        var i :| 0 <= i < |files| && files[i] == f;
      }
    }
  }

  method Groups(files: seq<File>, lower: Lower) returns (r: Result<seq<Group>, GroupError>)
    ensures r == Err(InvalidSplit) <==>
              exists f :: f in files && Parse(f.name).Some? &&
                var s := Parse(f.name).value; !(1 <= Number(s.index) <= Number(s.total))
    ensures r == Err(Incomplete) ==> SomeBroken(files, lower)
    ensures r.Ok? ==> Grouped(files, r.value, lower)
    ensures r.Ok? ==> forall i, j :: 0 <= i < j < |r.value| ==> Text.Leq(r.value[i].display, r.value[j].display)
  {
    var m := Collect(files, lower);
    ValidMeans(files);
    if m.None? {
      return Err(InvalidSplit);
    }
    var out := CheckAll(m.value, files, lower);
    if out.None? {
      return Err(Incomplete);
    }
    ByDisplayIsOrder();
    var sorted := Sort(out.value, ByDisplay);
    SortedGroups(m.value, out.value, sorted, files, lower);
    forall i, j | 0 <= i < j < |sorted|
      ensures Text.Leq(sorted[i].display, sorted[j].display)
    {
      assert ByDisplay(sorted[i], sorted[j]);
    }
    r := Ok(sorted);
  }

  lemma SortedGroups(m: map<GroupKey, Group>, out: seq<Group>, sorted: seq<Group>, files: seq<File>, lower: Lower)
    requires Collected(m, files, KeyedBy(lower), LeadShard()) && multiset(out) == multiset(sorted)
    requires KeysDone(m.Keys, {}, out) && AllGroups(files, out, lower)
    ensures Grouped(files, sorted, lower)
  {
    forall i | 0 <= i < |sorted|
      ensures GroupOf(files, sorted[i], lower)
    {
      assert sorted[i] in multiset(out);
    }
    OneEach(out, sorted);
    forall key | With(files, key, KeyedBy(lower)) != []
      ensures HasKey(sorted, key)
    {
      assert CollectedAt(m, key, files, KeyedBy(lower), LeadShard());
      assert key in m.Keys && HasKey(out, key);
      var i :| 0 <= i < |out| && out[i].key == key;
      assert out[i] in multiset(sorted);
    }
  }

  lemma OneEach(out: seq<Group>, sorted: seq<Group>)
    requires multiset(out) == multiset(sorted)
    requires forall i, j :: 0 <= i < j < |out| ==> out[i].key != out[j].key
    ensures forall i, j :: 0 <= i < j < |sorted| ==> sorted[i].key != sorted[j].key
  {
    forall i, j | 0 <= i < j < |sorted|
      ensures sorted[i].key != sorted[j].key
    {
      if sorted[i].key == sorted[j].key {
        assert sorted[i] in multiset(out) && sorted[j] in multiset(out);
        var x :| 0 <= x < |out| && out[x] == sorted[i];
        var y :| 0 <= y < |out| && out[y] == sorted[j];
        assert x == y;
        CountsTwice(sorted, i, j);
        CountsOnce(out, out[x], x);
        assert false;
      }
    }
  }

  // ---------- accepted groups are whole ----------

  lemma {:induction false} WithAre(files: seq<File>, key: GroupKey, keyed: Keyed, f: File)
    requires f in With(files, key, keyed)
    ensures f in files && keyed(f) == key
  {
    var n := |files| - 1;
    assert files == files[..n] + [files[n]];
    if f in With(files[..n], key, keyed) {
      WithAre(files[..n], key, keyed, f);
    }
  }

  lemma {:induction false} PrimaryLeads(fs: seq<File>, key: GroupKey, lead: Lead)
    requires key.Split?
    ensures PrimaryOf(fs, key, lead) != "" ==> exists f :: f in fs && lead(f) && f.name == PrimaryOf(fs, key, lead)
    ensures forall f :: f in fs && lead(f) && (forall g :: g in fs ==> g.name != "") ==> PrimaryOf(fs, key, lead) != ""
  {
    if fs != [] {
      var n := |fs| - 1;
      assert fs == fs[..n] + [fs[n]];
      PrimaryLeads(fs[..n], key, lead);
      if lead(fs[n]) {
        assert fs[n] in fs;
      } else {
        forall f | f in fs && lead(f) && (forall g :: g in fs ==> g.name != "")
          ensures PrimaryOf(fs, key, lead) != ""
        {
          assert f in fs[..n];
          assert forall g :: g in fs[..n] ==> g in fs;
        }
      }
    }
  }

  lemma FilesOfGroup(files: seq<File>, g: Group, lower: Lower)
    requires GroupOf(files, g, lower)
    ensures forall j :: 0 <= j < |g.files| ==> g.files[j] in files && KeyOf(g.files[j].name, lower) == g.key
  {
    forall j | 0 <= j < |g.files|
      ensures g.files[j] in files && KeyOf(g.files[j].name, lower) == g.key
    {
      assert g.files[j] in multiset(With(files, g.key, KeyedBy(lower)));
      WithAre(files, g.key, KeyedBy(lower), g.files[j]);
    }
  }

  lemma PrimaryFirst(files: seq<File>, g: Group, lower: Lower)
    requires GroupOf(files, g, lower) && g.split
    ensures g.files != [] && g.primary == g.files[0].name
  {
    var with := With(files, g.key, KeyedBy(lower));
    PrimaryLeads(with, g.key, LeadShard());
    var f :| f in with && LeadShard()(f) && f.name == g.primary;
    assert f in multiset(g.files);
    var j :| 0 <= j < |g.files| && g.files[j] == f;
    assert IndexOf(g.files[j].name) == j + 1;
  }

  // The shards of an accepted split group are 1 to n, in order, n of them, of the same
  // total n; the primary is the first.
  lemma AcceptedIsWhole(files: seq<File>, out: seq<Group>, lower: Lower, i: nat)
    requires Grouped(files, out, lower) && i < |out| && out[i].split
    ensures var fs := out[i].files;
            && fs != [] && out[i].primary == fs[0].name
            && forall j :: 0 <= j < |fs| ==>
                fs[j] in files && IndexOf(fs[j].name) == j + 1 && TotalOf(fs[j].name) == |fs|
  {
    var g := out[i];
    assert GroupOf(files, g, lower);
    PrimaryFirst(files, g, lower);
    FilesOfGroup(files, g, lower);
    forall j | 0 <= j < |g.files|
      ensures TotalOf(g.files[j].name) == TotalOf(g.files[0].name)
    {
      SameTotal(g.files[j].name, g.files[0].name, g.key, lower);
    }
  }

  lemma SameTotal(a: string, b: string, key: GroupKey, lower: Lower)
    requires KeyOf(a, lower) == key == KeyOf(b, lower) && key.Split?
    ensures TotalOf(a) == TotalOf(b)
  {
  }

  // ---------- whole sets are accepted ----------

  // One shard of a set that shares prefix, separator and extension.
  ghost predicate ShardName(name: string, prefix: string, of: string, total: string, ext: string) {
    exists index :: Matches(name, prefix, index, of, total, ext) && 1 <= Number(index) <= Number(total)
  }

  ghost predicate DistinctNames(fs: seq<File>) {
    forall i, j :: 0 <= i < j < |fs| ==> fs[i].name != fs[j].name
  }

  ghost predicate CompleteSet(fs: seq<File>, prefix: string, of: string, total: string, ext: string) {
    && Digits(total) && |fs| == Number(total) && DistinctNames(fs)
    && forall i :: 0 <= i < |fs| ==> ShardName(fs[i].name, prefix, of, total, ext)
  }

  ghost predicate ACompleteSet(fs: seq<File>) {
    exists prefix, of, total, ext :: CompleteSet(fs, prefix, of, total, ext)
  }

  // Every split group of the listing is a complete set, in whatever order.
  ghost predicate CompleteListing(files: seq<File>, lower: Lower) {
    forall key: GroupKey :: key.Split? && With(files, key, KeyedBy(lower)) != [] ==>
          ACompleteSet(With(files, key, KeyedBy(lower)))
  }

  lemma ShardParses(name: string, prefix: string, of: string, total: string, ext: string) returns (index: string)
    requires ShardName(name, prefix, of, total, ext)
    ensures Matches(name, prefix, index, of, total, ext) && 1 <= Number(index) <= Number(total)
    ensures IndexOf(name) == Number(index) && TotalOf(name) == Number(total) && ValidName(name) && name != ""
  {
    index :| Matches(name, prefix, index, of, total, ext) && 1 <= Number(index) <= Number(total);
    ParseMatches(name, prefix, index, of, total, ext);
  }

  // Different shards in text order have increasing indices.
  lemma IndicesRise(a: string, b: string, prefix: string, of: string, total: string, ext: string)
    requires ShardName(a, prefix, of, total, ext) && ShardName(b, prefix, of, total, ext) && Text.Leq(a, b) && a != b
    ensures IndexOf(a) < IndexOf(b)
  {
    var i := ShardParses(a, prefix, of, total, ext);
    var j := ShardParses(b, prefix, of, total, ext);
    NamesInOrder(prefix, i, j, of, total, ext);
    TextIsNumeric(i, j);
  }

  // Rising numbers between 1 and n, n of them, are 1 to n.
  lemma {:induction false} RisingFromBelow(v: seq<nat>, i: nat)
    requires i < |v| && v[0] >= 1 && forall a, b :: 0 <= a < b < |v| ==> v[a] < v[b]
    ensures v[i] >= i + 1
  {
    if i > 0 {
      RisingFromBelow(v, i - 1);
    }
  }

  lemma {:induction false} RisingFromAbove(v: seq<nat>, i: nat)
    requires i < |v| && (forall a :: 0 <= a < |v| ==> v[a] <= |v|) && forall a, b :: 0 <= a < b < |v| ==> v[a] < v[b]
    ensures v[i] <= i + 1
    decreases |v| - i
  {
    if i + 1 < |v| {
      RisingFromAbove(v, i + 1);
    }
  }

  function Indices(fs: seq<File>): (r: seq<nat>)
    ensures |r| == |fs| && forall i :: 0 <= i < |fs| ==> r[i] == IndexOf(fs[i].name)
  {
    if fs == [] then [] else [IndexOf(fs[0].name)] + Indices(fs[1..])
  }

  lemma SortedSetRises(s: seq<File>, prefix: string, of: string, total: string, ext: string)
    requires CompleteSet(s, prefix, of, total, ext) && s != [] && Sorted(s, ByName)
    ensures InSequence(s)
  {
    var v := Indices(s);
    forall a, b | 0 <= a < b < |v|
      ensures v[a] < v[b]
    {
      assert ByName(s[a], s[b]) && s[a].name != s[b].name;
      IndicesRise(s[a].name, s[b].name, prefix, of, total, ext);
    }
    forall a | 0 <= a < |v|
      ensures 1 <= v[a] <= |v|
    {
      var index := ShardParses(s[a].name, prefix, of, total, ext);
    }
    forall i | 0 <= i < |s|
      ensures IndexOf(s[i].name) == i + 1
    {
      RisingFromBelow(v, i);
      RisingFromAbove(v, i);
    }
    var first := ShardParses(s[0].name, prefix, of, total, ext);
  }

  lemma SetInAnyOrder(fs: seq<File>, s: seq<File>, prefix: string, of: string, total: string, ext: string)
    requires CompleteSet(fs, prefix, of, total, ext) && multiset(fs) == multiset(s)
    ensures CompleteSet(s, prefix, of, total, ext)
  {
    assert |multiset(fs)| == |multiset(s)|;
    forall i | 0 <= i < |s|
      ensures ShardName(s[i].name, prefix, of, total, ext)
    {
      assert s[i] in multiset(fs);
    }
    forall i, j | 0 <= i < j < |s|
      ensures s[i].name != s[j].name
    {
      if s[i].name == s[j].name {
        assert s[i] in multiset(fs) && s[j] in multiset(fs);
        var x :| 0 <= x < |fs| && fs[x] == s[i];
        var y :| 0 <= y < |fs| && fs[y] == s[j];
        assert x == y;
        CountsTwice(s, i, j);
        CountsOnce(fs, fs[x], x);
        assert false;
      }
    }
  }

  lemma SetHasPrimary(fs: seq<File>, s: seq<File>, key: GroupKey, prefix: string, of: string, total: string,
                      ext: string)
    requires CompleteSet(fs, prefix, of, total, ext) && multiset(fs) == multiset(s) && InSequence(s) && key.Split?
    ensures PrimaryOf(fs, key, LeadShard()) != ""
  {
    assert s[0] in multiset(fs) && IndexOf(s[0].name) == 1;
    forall g | g in fs
      ensures g.name != ""
    {
      var i :| 0 <= i < |fs| && fs[i] == g;
      var index := ShardParses(g.name, prefix, of, total, ext);
    }
    PrimaryLeads(fs, key, LeadShard());
    assert LeadShard()(s[0]);
  }

  // A set that is complete is not broken, however it is listed and sorted.
  lemma CompleteIsNotBroken(files: seq<File>, lower: Lower, key: GroupKey, s: seq<File>)
    requires CompleteListing(files, lower)
    ensures !Broken(files, key, s, lower)
  {
    var fs := With(files, key, KeyedBy(lower));
    if key.Split? && fs != [] && Sorted(s, ByName) && multiset(s) == multiset(fs) {
      assert ACompleteSet(fs);
      var prefix, of, total, ext :| CompleteSet(fs, prefix, of, total, ext);
      SetInAnyOrder(fs, s, prefix, of, total, ext);
      assert |multiset(fs)| == |multiset(s)|;
      SortedSetRises(s, prefix, of, total, ext);
      SetHasPrimary(fs, s, key, prefix, of, total, ext);
    }
  }

  lemma {:induction false} InOwnGroup(files: seq<File>, i: nat, keyed: Keyed)
    requires i < |files|
    ensures files[i] in With(files, keyed(files[i]), keyed)
  {
    var n := |files| - 1;
    if i < n {
      InOwnGroup(files[..n], i, keyed);
    }
  }

  // A listing whose split groups are complete sets gives neither error.
  lemma CompleteIsAccepted(files: seq<File>, lower: Lower)
    requires CompleteListing(files, lower)
    ensures AllValid(files) && !SomeBroken(files, lower)
  {
    forall i | 0 <= i < |files|
      ensures ValidName(files[i].name)
    {
      var key := KeyOf(files[i].name, lower);
      if key.Split? {
        InOwnGroup(files, i, KeyedBy(lower));
        var fs := With(files, key, KeyedBy(lower));
        assert ACompleteSet(fs);
        var prefix, of, total, ext :| CompleteSet(fs, prefix, of, total, ext);
        var j :| 0 <= j < |fs| && fs[j] == files[i];
        var index := ShardParses(fs[j].name, prefix, of, total, ext);
      }
    }
    forall key, s
      ensures !Broken(files, key, s, lower)
    {
      CompleteIsNotBroken(files, lower, key, s);
    }
  }

  // ---------- files that are lost ----------

  ghost predicate Stands(f: File, out: seq<Group>) {
    exists i :: 0 <= i < |out| && f in out[i].files
  }

  ghost predicate NoneLost(files: seq<File>, out: seq<Group>) {
    forall f :: f in files ==> Stands(f, out)
  }

  // Different whole files differ in their lower-cased names.
  ghost predicate NamesApart(files: seq<File>, lower: Lower) {
    forall f, g :: f in files && g in files && Clash(f, g, lower) ==> f == g
  }

  predicate Clash(f: File, g: File, lower: Lower) {
    Parse(f.name).None? && Parse(g.name).None? && lower(f.name) == lower(g.name)
  }

  lemma OneFile(fs: seq<File>, f: File)
    requires multiset(fs) == multiset([f])
    ensures fs == [f]
  {
    assert |multiset(fs)| == 1;
    assert fs[0] in multiset([f]);
  }

  // A group of whole files has one, of its key.
  lemma WholeGroup(files: seq<File>, g: Group, lower: Lower) returns (f: File)
    requires GroupOf(files, g, lower) && g.key.Whole?
    ensures g.files == [f] && f in files && KeyOf(f.name, lower) == g.key
  {
    var fs := With(files, g.key, KeyedBy(lower));
    f := fs[|fs| - 1];
    OneFile(g.files, f);
    WithAre(files, g.key, KeyedBy(lower), f);
  }

  // A split group has all of its key.
  lemma SplitGroup(files: seq<File>, g: Group, lower: Lower, k: nat)
    requires GroupOf(files, g, lower) && k < |files| && KeyOf(files[k].name, lower) == g.key && g.key.Split?
    ensures files[k] in g.files
  {
    InOwnGroup(files, k, KeyedBy(lower));
    assert files[k] in multiset(With(files, g.key, KeyedBy(lower)));
    assert files[k] in multiset(g.files);
  }

  lemma HasGroup(files: seq<File>, out: seq<Group>, lower: Lower, k: nat) returns (i: nat)
    requires Grouped(files, out, lower) && k < |files|
    ensures i < |out| && out[i].key == KeyOf(files[k].name, lower) && GroupOf(files, out[i], lower)
  {
    InOwnGroup(files, k, KeyedBy(lower));
    assert HasKey(out, KeyOf(files[k].name, lower));
    i :| 0 <= i < |out| && out[i].key == KeyOf(files[k].name, lower);
  }

  // With names apart no file is lost.
  lemma StandsApart(files: seq<File>, out: seq<Group>, lower: Lower, k: nat)
    requires Grouped(files, out, lower) && k < |files| && NamesApart(files, lower)
    ensures Stands(files[k], out)
  {
    var i := HasGroup(files, out, lower, k);
    if out[i].key.Split? {
      SplitGroup(files, out[i], lower, k);
    } else {
      var f := WholeGroup(files, out[i], lower);
      assert Clash(files[k], f, lower);
    }
  }

  lemma StandsUnderKey(files: seq<File>, out: seq<Group>, lower: Lower, f: File) returns (i: nat)
    requires Grouped(files, out, lower) && Stands(f, out)
    ensures i < |out| && f in out[i].files && out[i].key == KeyOf(f.name, lower)
  {
    i :| 0 <= i < |out| && f in out[i].files;
    assert GroupOf(files, out[i], lower);
    FilesOfGroup(files, out[i], lower);
  }

  // Two whole files of one group are one.
  lemma WholeAlone(files: seq<File>, out: seq<Group>, lower: Lower, f: File, g: File)
    requires Grouped(files, out, lower) && Stands(f, out) && Stands(g, out) && Clash(f, g, lower)
    ensures f == g
  {
    var i := StandsUnderKey(files, out, lower, f);
    var j := StandsUnderKey(files, out, lower, g);
    KeysApart(out, i, j);
    OnlyOne(files, out, lower, i, f, g);
  }

  lemma KeysApart(out: seq<Group>, i: nat, j: nat)
    requires i < |out| && j < |out| && out[i].key == out[j].key
    requires forall a, b :: 0 <= a < b < |out| ==> out[a].key != out[b].key
    ensures i == j
  {
  }

  lemma OnlyOne(files: seq<File>, out: seq<Group>, lower: Lower, i: nat, f: File, g: File)
    requires AllGroups(files, out, lower) && i < |out| && out[i].key.Whole? && f in out[i].files && g in out[i].files
    ensures f == g
  {
    assert GroupOf(files, out[i], lower);
    var only := WholeGroup(files, out[i], lower);
  }

  // Every file of an accepted listing stands in a group if and only if no different whole
  // files agree in their lower-cased names.
  lemma NoneLostIff(files: seq<File>, out: seq<Group>, lower: Lower)
    requires Grouped(files, out, lower)
    ensures NoneLost(files, out) <==> NamesApart(files, lower)
  {
    if NamesApart(files, lower) {
      forall f | f in files
        ensures Stands(f, out)
      {
        var k :| 0 <= k < |files| && files[k] == f;
        StandsApart(files, out, lower, k);
      }
    }
    if NoneLost(files, out) {
      forall f, g | f in files && g in files && Clash(f, g, lower)
        ensures f == g
      {
        WholeAlone(files, out, lower, f, g);
      }
    }
  }

  // Two files that differ in case: the listing is accepted, and loses one of them.
  lemma CaseLosesFile(out: seq<Group>, lower: Lower)
    requires lower("M.gguf") == lower("m.gguf")
    ensures var files := [File("M.gguf", 1), File("m.gguf", 2)];
            && AllValid(files) && !SomeBroken(files, lower)
            && (Grouped(files, out, lower) ==> !NoneLost(files, out))
  {
    var files := [File("M.gguf", 1), File("m.gguf", 2)];
    forall key: GroupKey | key.Split?
      ensures With(files, key, KeyedBy(lower)) == []
    {
      if With(files, key, KeyedBy(lower)) != [] {
        WithAre(files, key, KeyedBy(lower), With(files, key, KeyedBy(lower))[0]);
      }
    }
    assert Clash(files[0], files[1], lower) && files[0].blob != files[1].blob;
    if Grouped(files, out, lower) {
      NoneLostIff(files, out, lower);
    }
  }
}
