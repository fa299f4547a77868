/** Fusing dense and lexical hits (internal/rag/service.go: fuseSearchResults;
    internal/rag/lexical.go: searchResultLess). Scores are reals. */
module Fusion {
  import opened Prelude
  import opened Sorting
  import opened Search
  import Text

  // What identifies a hit; the three fields stand in one string there, between NULs.
  datatype HitKey = HitKey(collection: string, heading: string, text: string)

  function Key(h: Hit): HitKey {
    HitKey(h.collection, h.chunk.heading, h.chunk.text)
  }

  function ClampUnit(x: real): real {
    if x < 0.0 then 0.0 else if x > 1.0 then 1.0 else x
  }

  // ---------- what a key's result should be ----------

  function Doubt(h: Hit, key: HitKey): real {
    if Key(h) == key then 1.0 - ClampUnit(h.score) else 1.0
  }

  // The chance that none of the key's hits is right.
  function Miss(hits: seq<Hit>, key: HitKey): real {
    if hits == [] then 1.0 else Times(Miss(hits[..|hits| - 1], key), Doubt(hits[|hits| - 1], key))
  }

  // Hits of one collection, heading and text are hits of one key; each leaves the doubt
  // that its score, taken into [0, 1], leaves.
  lemma MissMeans(hits: seq<Hit>, h: Hit, r: Hit)
    ensures Key(h) == Key(r) <==>
            h.collection == r.collection && h.chunk.heading == r.chunk.heading && h.chunk.text == r.chunk.text
    ensures Miss([], Key(r)) == 1.0
    ensures Key(h) == Key(r) ==>
              Miss(hits + [h], Key(r)) ==
              (if h.score < 0.0 then Miss(hits, Key(r)) else if h.score > 1.0 then 0.0
               else Miss(hits, Key(r)) * (1.0 - h.score))
    ensures Key(h) != Key(r) ==> Miss(hits + [h], Key(r)) == Miss(hits, Key(r))
  {
    assert (hits + [h])[..|hits|] == hits;
    TimesLaws(Miss(hits, Key(r)), 1.0, 1.0);
    TimesZero(Miss(hits, Key(r)));
  }

  lemma TimesZero(a: real)
    ensures Times(a, 0.0) == 0.0
  {
  }

  ghost predicate HasKey(hits: seq<Hit>, key: HitKey) {
    exists i :: 0 <= i < |hits| && Key(hits[i]) == key
  }

  ghost predicate HasVector(hits: seq<Hit>, key: HitKey) {
    exists i :: 0 <= i < |hits| && Key(hits[i]) == key && hits[i].chunk.vector != []
  }

  // The hit that stands for its key: the first with a vector, the first if none has.
  ghost predicate Leads(hits: seq<Hit>, i: int) {
    0 <= i < |hits| &&
    if hits[i].chunk.vector != []
    then forall j :: 0 <= j < i && Key(hits[j]) == Key(hits[i]) ==> hits[j].chunk.vector == []
    else !HasVector(hits, Key(hits[i])) && forall j :: 0 <= j < i ==> Key(hits[j]) != Key(hits[i])
  }

  ghost predicate Led(hits: seq<Hit>, r: Hit) {
    exists i :: Leads(hits, i) && r == hits[i].(score := r.score)
  }

  // The hit that stands for r's key, with the fused score.
  ghost predicate Fused(hits: seq<Hit>, r: Hit) {
    r.score == 1.0 - Miss(hits, Key(r)) && Led(hits, r)
  }

  ghost predicate SameKey(a: Hit, b: Hit) {
    a.collection == b.collection && a.chunk.heading == b.chunk.heading && a.chunk.text == b.chunk.text
  }

  // A result is, but for its score, the first hit of its key that has a vector, or the
  // first at all if none has one.
  lemma FusedMeans(hits: seq<Hit>, r: Hit) returns (i: nat)
    requires Fused(hits, r)
    ensures i < |hits| && SameKey(hits[i], r) && r == Hit(hits[i].collection, hits[i].chunk, r.score)
    ensures r.chunk.vector != [] ==>
              forall j :: 0 <= j < i && SameKey(hits[j], r) ==> hits[j].chunk.vector == []
    ensures r.chunk.vector == [] ==>
              && (forall j :: 0 <= j < |hits| && SameKey(hits[j], r) ==> hits[j].chunk.vector == [])
              && forall j :: 0 <= j < i ==> !SameKey(hits[j], r)
  {
    i :| Leads(hits, i) && r == hits[i].(score := r.score);
    forall j | 0 <= j < |hits|
      ensures SameKey(hits[j], r) <==> Key(hits[j]) == Key(hits[i])
    {
    }
  }

  lemma TimesLaws(a: real, b: real, c: real)
    ensures Times(a, b) == Times(b, a) && Times(Times(a, b), c) == Times(a, Times(b, c))
    ensures Times(a, 1.0) == a
  {
    assert a * b * c == a * (b * c);
  }

  lemma TimesUnit(a: real, b: real)
    requires 0.0 <= a <= 1.0 && 0.0 <= b <= 1.0
    ensures 0.0 <= Times(a, b) <= 1.0
  {
    NonNegative(a, b);
    NonNegative(1.0 - a, b);
    assert (1.0 - a) * b == b - a * b;
  }

  lemma NonNegative(a: real, b: real)
    requires a >= 0.0 && b >= 0.0
    ensures a * b >= 0.0
  {
  }

  lemma {:induction false} MissInUnit(hits: seq<Hit>, key: HitKey)
    ensures 0.0 <= Miss(hits, key) <= 1.0
  {
    if hits != [] {
      MissInUnit(hits[..|hits| - 1], key);
      TimesUnit(Miss(hits[..|hits| - 1], key), Doubt(hits[|hits| - 1], key));
    }
  }

  lemma {:induction false} MissAppend(a: seq<Hit>, b: seq<Hit>, key: HitKey)
    ensures Miss(a + b, key) == Times(Miss(a, key), Miss(b, key))
    decreases |b|
  {
    if b == [] {
      assert a + b == a;
      TimesLaws(Miss(a, key), 1.0, 1.0);
    } else {
      var n := |b| - 1;
      assert a + b == (a + b[..n]) + [b[n]];
      MissAppend(a, b[..n], key);
      TimesLaws(Miss(a, key), Miss(b[..n], key), Doubt(b[n], key));
    }
  }

  lemma MissSwap(a: seq<Hit>, x: Hit, b: seq<Hit>, key: HitKey)
    ensures Miss(a + [x] + b, key) == Miss(a + b + [x], key)
  {
    var p, q, d := Miss(a, key), Miss(b, key), Doubt(x, key);
    MissAppend(a + [x], b, key);
    MissAppend(a, b, key);
    TimesLaws(p, d, q);
    TimesLaws(d, q, 1.0);
    TimesLaws(p, q, d);
  }

  lemma WithoutOne(s: seq<Hit>, j: nat)
    requires j < |s|
    ensures s == s[..j] + [s[j]] + s[j + 1..]
    ensures multiset(s) == multiset(s[..j] + s[j + 1..]) + multiset{s[j]}
  {
    assert s == s[..j] + [s[j]] + s[j + 1..];
  }

  // Any hit can be taken out and counted last.
  lemma MissWithout(s: seq<Hit>, j: nat, key: HitKey)
    requires j < |s|
    ensures Miss(s, key) == Times(Miss(s[..j] + s[j + 1..], key), Doubt(s[j], key))
  {
    WithoutOne(s, j);
    MissSwap(s[..j], s[j], s[j + 1..], key);
  }

  // The order of the hits does not matter to the score.
  lemma {:induction false} OrderDoesNotMatter(a: seq<Hit>, b: seq<Hit>, key: HitKey)
    requires multiset(a) == multiset(b)
    ensures Miss(a, key) == Miss(b, key)
    decreases |a|
  {
    assert |multiset(a)| == |multiset(b)|;
    if a != [] {
      assert a[0] in multiset(b);
      var j :| 0 <= j < |b| && b[j] == a[0];
      var a', b' := a[..0] + a[1..], b[..j] + b[j + 1..];
      WithoutOne(a, 0);
      WithoutOne(b, j);
      SameRest(multiset(a'), multiset(b'), a[0]);
      OrderDoesNotMatter(a', b', key);
      MissWithout(a, 0, key);
      MissWithout(b, j, key);
    }
  }

  lemma SameRest(a: multiset<Hit>, b: multiset<Hit>, x: Hit)
    requires a + multiset{x} == b + multiset{x}
    ensures a == b
  {
    assert a == (a + multiset{x}) - multiset{x} && b == (b + multiset{x}) - multiset{x};
  }

  // ---------- merging ----------

  function Flatten(groups: seq<seq<Hit>>): seq<Hit> {
    if groups == [] then [] else Flatten(groups[..|groups| - 1]) + groups[|groups| - 1]
  }

  // All groups, one behind the other.
  lemma FlattenMeans(groups: seq<seq<Hit>>, group: seq<Hit>)
    ensures Flatten([]) == [] && Flatten(groups + [group]) == Flatten(groups) + group
  {
    assert (groups + [group])[..|groups|] == groups;
  }

  ghost predicate Merged(m: map<HitKey, Hit>, hits: seq<Hit>) {
    && (forall key :: key in m <==> HasKey(hits, key))
    && (forall key :: key in m ==> Key(m[key]) == key && Fused(hits, m[key]))
  }

  // One hit into the map.
  function Take1(m: map<HitKey, Hit>, hit: Hit): map<HitKey, Hit> {
    var key := Key(hit);
    m[key := if key in m then Combined(m[key], hit) else hit.(score := ClampUnit(hit.score))]
  }

  lemma {:induction false} MissOfNone(hits: seq<Hit>, key: HitKey)
    requires !HasKey(hits, key)
    ensures Miss(hits, key) == 1.0
  {
    if hits != [] {
      var n := |hits| - 1;
      assert hits[..n] + [hits[n]] == hits;
      HasMore(hits[..n], hits[n], key);
      MissOfNone(hits[..n], key);
      TimesLaws(1.0, 1.0, 1.0);
    }
  }

  lemma HasMore(hits: seq<Hit>, hit: Hit, key: HitKey)
    ensures HasKey(hits + [hit], key) <==> HasKey(hits, key) || Key(hit) == key
    ensures HasVector(hits + [hit], key) <==> HasVector(hits, key) || (Key(hit) == key && hit.chunk.vector != [])
  {
    var more := hits + [hit];
    assert more[|hits|] == hit;
    assert forall i :: 0 <= i < |hits| ==> more[i] == hits[i];
  }

  // Another key's result stays.
  lemma FusedStays(hits: seq<Hit>, hit: Hit, r: Hit)
    requires Fused(hits, r) && Key(hit) != Key(r)
    ensures Fused(hits + [hit], r)
  {
    TimesLaws(Miss(hits, Key(r)), 1.0, 1.0);
    HasMore(hits, hit, Key(r));
    var i :| Leads(hits, i) && r == hits[i].(score := r.score);
    assert Leads(hits + [hit], i);
  }

  lemma FusedFirst(hits: seq<Hit>, hit: Hit)
    requires !HasKey(hits, Key(hit))
    ensures Fused(hits + [hit], hit.(score := ClampUnit(hit.score)))
  {
    MissOfNone(hits, Key(hit));
    TimesLaws(1.0, Doubt(hit, Key(hit)), 1.0);
    TimesLaws(Doubt(hit, Key(hit)), 1.0, 1.0);
    HasMore(hits, hit, Key(hit));
    assert !HasVector(hits, Key(hit));
    assert Leads(hits + [hit], |hits|);
  }

  // A further hit of the key: the vector is taken over if there was none.
  function Combined(current: Hit, hit: Hit): Hit {
    var score := ClampUnit(1.0 - Times(1.0 - ClampUnit(current.score), 1.0 - ClampUnit(hit.score)));
    if current.chunk.vector == [] && hit.chunk.vector != [] then hit.(score := score) else current.(score := score)
  }

  lemma MissLast(hits: seq<Hit>, hit: Hit, key: HitKey)
    ensures Miss(hits + [hit], key) == Times(Miss(hits, key), Doubt(hit, key))
  {
    assert (hits + [hit])[..|hits|] == hits;
  }

  lemma CombinedScore(current: Hit, hit: Hit, p: real, d: real)
    requires 0.0 <= p <= 1.0 && current.score == 1.0 - p && d == 1.0 - ClampUnit(hit.score)
    ensures Combined(current, hit).score == 1.0 - Times(p, d)
  {
    assert 1.0 - ClampUnit(current.score) == p;
    TimesUnit(p, d);
  }

  lemma FusedScore(hits: seq<Hit>, hit: Hit, current: Hit)
    requires Fused(hits, current) && Key(hit) == Key(current)
    ensures Combined(current, hit).score == 1.0 - Miss(hits + [hit], Key(hit))
  {
    MissInUnit(hits, Key(hit));
    MissLast(hits, hit, Key(hit));
    CombinedScore(current, hit, Miss(hits, Key(hit)), Doubt(hit, Key(hit)));
  }

  lemma FusedAgain(hits: seq<Hit>, hit: Hit, current: Hit)
    requires Fused(hits, current) && Key(hit) == Key(current)
    ensures Fused(hits + [hit], Combined(current, hit)) && Key(Combined(current, hit)) == Key(hit)
  {
    FusedScore(hits, hit, current);
    HasMore(hits, hit, Key(hit));
    var i :| Leads(hits, i) && current == hits[i].(score := current.score);
    if current.chunk.vector == [] && hit.chunk.vector != [] {
      assert Leads(hits + [hit], |hits|);
    } else {
      assert Leads(hits + [hit], i);
    }
  }

  lemma MergedAt(m: map<HitKey, Hit>, hits: seq<Hit>, hit: Hit, key: HitKey)
    requires Merged(m, hits)
    ensures key in Take1(m, hit) <==> HasKey(hits + [hit], key)
    ensures key in Take1(m, hit) ==> Key(Take1(m, hit)[key]) == key && Fused(hits + [hit], Take1(m, hit)[key])
  {
    HasMore(hits, hit, key);
    if key == Key(hit) {
      if key in m {
        FusedAgain(hits, hit, m[key]);
      } else {
        FusedFirst(hits, hit);
      }
    } else if key in m {
      FusedStays(hits, hit, m[key]);
    }
  }

  lemma MergedMore(m: map<HitKey, Hit>, hits: seq<Hit>, hit: Hit)
    requires Merged(m, hits)
    ensures Merged(Take1(m, hit), hits + [hit])
  {
    forall key
      ensures key in Take1(m, hit) <==> HasKey(hits + [hit], key)
      ensures key in Take1(m, hit) ==> Key(Take1(m, hit)[key]) == key && Fused(hits + [hit], Take1(m, hit)[key])
    {
      MergedAt(m, hits, hit, key);
    }
  }

  // ---------- ranking ----------

  // In text order, and where that ties, as the rest says.
  predicate Lexical(a: string, b: string, rest: bool) {
    if a != b then Text.Leq(a, b) else rest
  }

  predicate HeadingLeq(a: Hit, b: Hit) {
    Lexical(a.chunk.heading, b.chunk.heading, Text.Leq(a.chunk.id, b.chunk.id))
  }

  predicate SourceLeq(a: Hit, b: Hit) {
    Lexical(a.chunk.source, b.chunk.source, HeadingLeq(a, b))
  }

  // Collection, then source, heading and id.
  predicate TieLeq(a: Hit, b: Hit) {
    Lexical(a.collection, b.collection, SourceLeq(a, b))
  }

  predicate Ranked(a: Hit, b: Hit) {
    a.score > b.score || (a.score == b.score && TieLeq(a, b))
  }

  lemma TieLeqTotal(a: Hit, b: Hit)
    ensures TieLeq(a, b) || TieLeq(b, a)
    ensures TieLeq(a, b) && TieLeq(b, a) ==>
              a.collection == b.collection && a.chunk.source == b.chunk.source && a.chunk.heading == b.chunk.heading &&
                a.chunk.id == b.chunk.id
  {
    Text.LeqTotal(a.collection, b.collection);
    Text.LeqTotal(a.chunk.source, b.chunk.source);
    Text.LeqTotal(a.chunk.heading, b.chunk.heading);
    Text.LeqTotal(a.chunk.id, b.chunk.id);
  }

  lemma LexicalTransitive(a: string, b: string, c: string, p: bool, q: bool, r: bool)
    requires Lexical(a, b, p) && Lexical(b, c, q) && (p && q ==> r)
    ensures Lexical(a, c, r)
  {
    if a != b && b != c {
      Text.LeqTransitive(a, b, c);
      Text.LeqTotal(a, b);
      assert a == c ==> Text.Leq(b, a);
    }
  }

  lemma HeadingLeqTransitive(a: Hit, b: Hit, c: Hit)
    requires HeadingLeq(a, b) && HeadingLeq(b, c)
    ensures HeadingLeq(a, c)
  {
    if Text.Leq(a.chunk.id, b.chunk.id) && Text.Leq(b.chunk.id, c.chunk.id) {
      Text.LeqTransitive(a.chunk.id, b.chunk.id, c.chunk.id);
    }
    LexicalTransitive(a.chunk.heading, b.chunk.heading, c.chunk.heading,
                      Text.Leq(a.chunk.id, b.chunk.id), Text.Leq(b.chunk.id, c.chunk.id),
                        Text.Leq(a.chunk.id, c.chunk.id));
  }

  lemma SourceLeqTransitive(a: Hit, b: Hit, c: Hit)
    requires SourceLeq(a, b) && SourceLeq(b, c)
    ensures SourceLeq(a, c)
  {
    if HeadingLeq(a, b) && HeadingLeq(b, c) {
      HeadingLeqTransitive(a, b, c);
    }
    LexicalTransitive(a.chunk.source, b.chunk.source, c.chunk.source, HeadingLeq(a, b), HeadingLeq(b, c),
                      HeadingLeq(a, c));
  }

  lemma TieLeqTransitive(a: Hit, b: Hit, c: Hit)
    requires TieLeq(a, b) && TieLeq(b, c)
    ensures TieLeq(a, c)
  {
    if SourceLeq(a, b) && SourceLeq(b, c) {
      SourceLeqTransitive(a, b, c);
    }
    LexicalTransitive(a.collection, b.collection, c.collection, SourceLeq(a, b), SourceLeq(b, c), SourceLeq(a, c));
  }

  // A higher score goes first; of equal scores the lesser collection, source, heading or
  // id does, whichever differs first.
  lemma RankedMeans(a: Hit, b: Hit)
    ensures a.score > b.score ==> Ranked(a, b) && !Ranked(b, a)
    ensures a.score == b.score ==>
              var c, d := a.chunk, b.chunk;
              && (a.collection != b.collection ==> (Ranked(a, b) <==> Text.Leq(a.collection, b.collection)))
              && (a.collection == b.collection ==>
                   && (c.source != d.source ==> (Ranked(a, b) <==> Text.Leq(c.source, d.source)))
                   && (c.source == d.source ==>
                        && (c.heading != d.heading ==> (Ranked(a, b) <==> Text.Leq(c.heading, d.heading)))
                        && (c.heading == d.heading ==> (Ranked(a, b) <==> Text.Leq(c.id, d.id)))))
  {
  }

  lemma RankedIsOrder()
    ensures TotalPreorder(Ranked)
  {
    forall a, b
      ensures Ranked(a, b) || Ranked(b, a)
    {
      TieLeqTotal(a, b);
    }
    forall a, b, c | Ranked(a, b) && Ranked(b, c)
      ensures Ranked(a, c)
    {
      if a.score == b.score == c.score {
        TieLeqTransitive(a, b, c);
      }
    }
  }

  // ---------- the fusion ----------

  // One result for every key, ranked.
  ghost predicate Ranking(hits: seq<Hit>, all: seq<Hit>) {
    && Sorted(all, Ranked)
    && (forall i :: 0 <= i < |all| ==> Fused(hits, all[i]))
    && (forall i, j :: 0 <= i < j < |all| ==> Key(all[i]) != Key(all[j]))
    && forall key :: HasKey(hits, key) ==> HasKey(all, key)
  }

  method MergeGroup(m: map<HitKey, Hit>, group: seq<Hit>, ghost before: seq<Hit>) returns (merged: map<HitKey, Hit>)
    requires Merged(m, before)
    ensures Merged(merged, before + group)
  {
    merged := m;
    assert before + group[..0] == before;
    for i := 0 to |group|
      invariant Merged(merged, before + group[..i])
    {
      MergedMore(merged, before + group[..i], group[i]);
      assert before + group[..i] + [group[i]] == before + group[..i + 1];
      merged := Take1(merged, group[i]);
    }
    assert group[..|group|] == group;
  }

  method Merge(groups: seq<seq<Hit>>) returns (merged: map<HitKey, Hit>)
    ensures Merged(merged, Flatten(groups))
  {
    merged := map[];
    for g := 0 to |groups|
      invariant Merged(merged, Flatten(groups[..g]))
    {
      assert groups[..g + 1][..g] == groups[..g];
      merged := MergeGroup(merged, groups[g], Flatten(groups[..g]));
    }
    assert groups[..|groups|] == groups;
  }

  // The values of the map, in whatever order it gives them.
  method ValuesOf(m: map<HitKey, Hit>) returns (values: seq<Hit>)
    requires forall key :: key in m ==> Key(m[key]) == key
    ensures forall i :: 0 <= i < |values| ==> Key(values[i]) in m && m[Key(values[i])] == values[i]
    ensures forall i, j :: 0 <= i < j < |values| ==> Key(values[i]) != Key(values[j])
    ensures forall key :: key in m ==> m[key] in values
  {
    var left := m.Keys;
    values := [];
    while left != {}
      invariant left <= m.Keys
      invariant forall i :: 0 <= i < |values| ==>
                  Key(values[i]) in m && m[Key(values[i])] == values[i] && Key(values[i]) !in left
      invariant forall i, j :: 0 <= i < j < |values| ==> Key(values[i]) != Key(values[j])
      invariant forall key :: key in m && key !in left ==> m[key] in values
      decreases left
    {
      var key :| key in left;
      left, values := left - {key}, values + [m[key]];
    }
  }

  lemma DistinctKeys(values: seq<Hit>, all: seq<Hit>)
    requires multiset(values) == multiset(all)
    requires forall i, j :: 0 <= i < j < |values| ==> Key(values[i]) != Key(values[j])
    ensures forall i, j :: 0 <= i < j < |all| ==> Key(all[i]) != Key(all[j])
  {
    forall i, j | 0 <= i < j < |all|
      ensures Key(all[i]) != Key(all[j])
    {
      if Key(all[i]) == Key(all[j]) {
        assert all[i] in multiset(values) && all[j] in multiset(values);
        var x :| 0 <= x < |values| && values[x] == all[i];
        var y :| 0 <= y < |values| && values[y] == all[j];
        assert x == y;
        CountsTwice(all, i, j);
        CountsAtMostOnce(values, all[i]);
        assert false;
      }
    }
  }

  lemma RankingOf(m: map<HitKey, Hit>, hits: seq<Hit>, values: seq<Hit>, all: seq<Hit>)
    requires Merged(m, hits) && Sorted(all, Ranked) && multiset(all) == multiset(values)
    requires forall i :: 0 <= i < |values| ==> Key(values[i]) in m && m[Key(values[i])] == values[i]
    requires forall i, j :: 0 <= i < j < |values| ==> Key(values[i]) != Key(values[j])
    requires forall key :: key in m ==> m[key] in values
    ensures Ranking(hits, all)
  {
    DistinctKeys(values, all);
    forall i | 0 <= i < |all|
      ensures Fused(hits, all[i])
    {
      assert all[i] in multiset(values);
    }
    forall key | HasKey(hits, key)
      ensures HasKey(all, key)
    {
      assert key in m && m[key] in multiset(all);
      var i :| 0 <= i < |all| && all[i] == m[key];
      assert Key(all[i]) == key;
    }
  }

  // One fused result for every key of the hits, ranked; of these the first k.
  method FuseSearchResults(k: int, groups: seq<seq<Hit>>) returns (results: seq<Hit>)
    ensures exists all :: Ranking(Flatten(groups), all) && results == if 0 < k < |all| then all[..k] else all
  {
    var merged := Merge(groups);
    var values := ValuesOf(merged);
    RankedIsOrder();
    SortSorts(values, Ranked);
    results := StableSort(values, Ranked);
    ghost var all := results;
    RankingOf(merged, Flatten(groups), values, all);
    if k > 0 && |results| > k {
      results := results[..k];
    }
  }

  // Nothing left out ranks before anything returned.
  lemma BestK(hits: seq<Hit>, all: seq<Hit>, k: nat, i: nat, j: nat)
    requires Ranking(hits, all) && i < |Search.Take(all, k)| <= j < |all|
    ensures Ranked(Search.Take(all, k)[i], all[j])
  {
  }

  lemma OneFused(hits: seq<Hit>, a: Hit, b: Hit)
    requires Fused(hits, a) && Fused(hits, b) && Key(a) == Key(b)
    ensures a == b
  {
    var i :| Leads(hits, i) && a == hits[i].(score := a.score);
    var j :| Leads(hits, j) && b == hits[j].(score := b.score);
    assert Key(hits[i]) == Key(a) && Key(hits[j]) == Key(b);
    if hits[i].chunk.vector != [] {
      assert HasVector(hits, Key(a));
    }
    if hits[j].chunk.vector != [] {
      assert HasVector(hits, Key(b));
    }
  }

  // Different keys never agree on collection, source, heading and id.
  ghost predicate NoTies(hits: seq<Hit>) {
    forall x, y :: Fused(hits, x) && Fused(hits, y) && Tie(x, y, Ranked) ==> Key(x) == Key(y)
  }

  lemma RankingHas(hits: seq<Hit>, a: seq<Hit>, b: seq<Hit>, x: Hit)
    requires Ranking(hits, a) && Ranking(hits, b) && x in a
    ensures x in b && multiset(a)[x] == 1
  {
    var i :| 0 <= i < |a| && a[i] == x;
    var w :| Leads(hits, w) && x == hits[w].(score := x.score);
    assert Key(hits[w]) == Key(x) && HasKey(hits, Key(x));
    var j :| 0 <= j < |b| && Key(b[j]) == Key(x);
    OneFused(hits, x, b[j]);
    CountsAtMostOnce(a, x);
    assert x in multiset(a);
  }

  // However the map orders its values, there is one ranking.
  lemma OneRanking(hits: seq<Hit>, a: seq<Hit>, b: seq<Hit>)
    requires Ranking(hits, a) && Ranking(hits, b) && NoTies(hits)
    ensures a == b
  {
    forall x
      ensures multiset(a)[x] == multiset(b)[x]
    {
      if x in a {
        RankingHas(hits, a, b, x);
        RankingHas(hits, b, a, x);
      } else if x in b {
        RankingHas(hits, b, a, x);
      } else {
        assert x !in multiset(a) && x !in multiset(b);
      }
    }
    assert multiset(a) == multiset(b);
    forall x, y | x in a && y in a && Tie(x, y, Ranked)
      ensures x == y
    {
      OneFused(hits, x, y);
    }
    SortedWithoutTies(a, b, Ranked);
  }

  // Fused results are all in a ranking.
  lemma FusedIsRanked(hits: seq<Hit>, all: seq<Hit>, x: Hit) returns (i: nat)
    requires Ranking(hits, all) && Fused(hits, x)
    ensures i < |all| && all[i] == x
  {
    var w :| Leads(hits, w) && x == hits[w].(score := x.score);
    assert Key(hits[w]) == Key(x) && HasKey(hits, Key(x));
    i :| 0 <= i < |all| && Key(all[i]) == Key(x);
    OneFused(hits, x, all[i]);
  }

  lemma SwappedHasKeys(a: seq<Hit>, i: nat, j: nat, key: HitKey)
    requires i < |a| && j < |a| && HasKey(a, key)
    ensures HasKey(Swapped(a, i, j), key)
  {
    var k :| 0 <= k < |a| && Key(a[k]) == key;
    var k' := if k == i then j else if k == j then i else k;
    assert Key(Swapped(a, i, j)[k']) == key;
  }

  lemma SwappedApart(a: seq<Hit>, i: nat, j: nat)
    requires i < |a| && j < |a| && forall p, q :: 0 <= p < q < |a| ==> Key(a[p]) != Key(a[q])
    ensures forall p, q :: 0 <= p < q < |a| ==> Key(Swapped(a, i, j)[p]) != Key(Swapped(a, i, j)[q])
  {
  }

  lemma SwappedFused(hits: seq<Hit>, a: seq<Hit>, i: nat, j: nat)
    requires i < |a| && j < |a| && forall k :: 0 <= k < |a| ==> Fused(hits, a[k])
    ensures forall k :: 0 <= k < |a| ==> Fused(hits, Swapped(a, i, j)[k])
  {
  }

  lemma SwappedRanking(hits: seq<Hit>, a: seq<Hit>, i: nat, j: nat)
    requires Ranking(hits, a) && i < |a| && j < |a| && i != j && Tie(a[i], a[j], Ranked)
    ensures Ranking(hits, Swapped(a, i, j)) && Swapped(a, i, j) != a
  {
    RankedIsOrder();
    SwapTied(a, i, j, Ranked);
    SwappedApart(a, i, j);
    SwappedFused(hits, a, i, j);
    assert Key(a[i]) != Key(a[j]) && Swapped(a, i, j)[i] == a[j];
    forall key | HasKey(hits, key)
      ensures HasKey(Swapped(a, i, j), key)
    {
      SwappedHasKeys(a, i, j, key);
    }
  }

  // There is one ranking exactly if nothing ties.
  lemma OnlyRankingIff(hits: seq<Hit>, a: seq<Hit>)
    requires Ranking(hits, a)
    ensures NoTies(hits) <==> forall b :: Ranking(hits, b) ==> b == a
  {
    if NoTies(hits) {
      forall b | Ranking(hits, b)
        ensures b == a
      {
        OneRanking(hits, a, b);
      }
    } else {
      var x, y :| Fused(hits, x) && Fused(hits, y) && Tie(x, y, Ranked) && Key(x) != Key(y);
      var i := FusedIsRanked(hits, a, x);
      var j := FusedIsRanked(hits, a, y);
      SwappedRanking(hits, a, i, j);
    }
  }

  // Two hits without vectors that agree in all but their texts.
  ghost predicate Alike(hits: seq<Hit>)
    requires |hits| == 2
  {
    var x, y := hits[0], hits[1];
    && x.collection == y.collection && x.chunk.source == y.chunk.source && x.chunk.heading == y.chunk.heading
    && x.chunk.id == y.chunk.id && x.chunk.text != y.chunk.text
    && x.chunk.vector == y.chunk.vector == [] && 0.0 <= x.score == y.score <= 1.0
  }

  lemma TwoMisses(hits: seq<Hit>, key: HitKey)
    requires |hits| == 2
    ensures Miss(hits, key) == Times(Doubt(hits[0], key), Doubt(hits[1], key))
  {
    var one := hits[..1];
    assert one[..0] == [];
    assert Miss(one, key) == Times(1.0, Doubt(hits[0], key)) == Doubt(hits[0], key);
  }

  lemma AlikeFused(hits: seq<Hit>, i: nat)
    requires |hits| == 2 && Alike(hits) && i < 2
    ensures Fused(hits, hits[i])
  {
    TwoMisses(hits, Key(hits[i]));
    assert Leads(hits, i) && hits[i] == hits[i].(score := hits[i].score);
  }

  lemma AlikeTie(hits: seq<Hit>)
    requires |hits| == 2 && Alike(hits)
    ensures Tie(hits[0], hits[1], Ranked) && Sorted(hits, Ranked)
  {
    Text.LeqTotal(hits[0].chunk.id, hits[1].chunk.id);
  }

  // Hits that are ranked, each for its key, are their own ranking.
  lemma RankedAlready(hits: seq<Hit>)
    requires Sorted(hits, Ranked) && forall i :: 0 <= i < |hits| ==> Fused(hits, hits[i])
    requires forall i, j :: 0 <= i < j < |hits| ==> Key(hits[i]) != Key(hits[j])
    ensures Ranking(hits, hits)
  {
  }

  // They tie: either may come first.
  lemma TwoRankings(hits: seq<Hit>)
    requires |hits| == 2 && Alike(hits)
    ensures Ranking(hits, hits) && Ranking(hits, Swapped(hits, 0, 1)) && Swapped(hits, 0, 1) != hits
  {
    AlikeFused(hits, 0);
    AlikeFused(hits, 1);
    AlikeTie(hits);
    RankedAlready(hits);
    SwappedRanking(hits, hits, 0, 1);
  }
}
