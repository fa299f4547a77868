/** Building the graph: structural edges per source, then edges between chunks that
    share a rare term (internal/rag/graph.go, internal/rag/entities.go). */
module GraphBuild {
  import opened Prelude
  import opened Sorting
  import opened Graph
  import Text
  import opened Search

  const MIN_ENTITY_CHUNKS := 2
  const MAX_ENTITY_CHUNKS := 64
  const MIN_TOPIC_CHUNKS := 2
  const MAX_TOPIC_CHUNKS := 12

  type Terms = Chunk -> set<string>

  type Trim = string -> string

  // ---------- shared terms ----------

  // The ids, of those listed, whose chunk has the term.
  function Members(ids: seq<string>, chunks: map<string, Chunk>, terms: Terms, e: string): seq<string> {
    if ids == [] then []
    else
      var id := ids[|ids| - 1];
      Members(ids[..|ids| - 1], chunks, terms, e) + (if id in chunks && e in terms(chunks[id]) then [id] else [])
  }

  lemma {:induction false} MembersAre(ids: seq<string>, chunks: map<string, Chunk>, terms: Terms, e: string, id: string)
    ensures id in Members(ids, chunks, terms, e) <==> id in ids && id in chunks && e in terms(chunks[id])
  {
    if ids != [] {
      var n := |ids| - 1;
      MembersAre(ids[..n], chunks, terms, e, id);
      assert ids == ids[..n] + [ids[n]];
    }
  }

  // The chunks that have the term.
  function Having(chunks: map<string, Chunk>, terms: Terms, e: string): set<string> {
    set id | id in chunks && e in terms(chunks[id])
  }

  function Within(ids: seq<string>, have: set<string>): set<string> {
    set id | id in ids && id in have
  }

  lemma WithinMore(ids: seq<string>, id: string, have: set<string>)
    requires id !in ids
    ensures Within(ids + [id], have) == Within(ids, have) + (if id in have then {id} else {})
    ensures |Within(ids + [id], have)| == |Within(ids, have)| + (if id in have then 1 else 0)
  {
    assert Within(ids + [id], have) == Within(ids, have) + (if id in have then {id} else {});
    assert id !in Within(ids, have);
  }

  lemma {:induction false} MembersCount(ids: seq<string>, chunks: map<string, Chunk>, terms: Terms, e: string)
    requires forall i, j :: 0 <= i < j < |ids| ==> ids[i] != ids[j]
    ensures |Members(ids, chunks, terms, e)| == |Within(ids, Having(chunks, terms, e))|
  {
    if ids == [] {
      assert Within(ids, Having(chunks, terms, e)) == {};
    } else {
      var n := |ids| - 1;
      MembersCount(ids[..n], chunks, terms, e);
      assert ids == ids[..n] + [ids[n]];
      WithinMore(ids[..n], ids[n], Having(chunks, terms, e));
    }
  }

  // A term in as many chunks as a listing has members.
  lemma MembersOfAll(ids: seq<string>, chunks: map<string, Chunk>, terms: Terms, e: string)
    requires Text.Listing(ids, chunks.Keys)
    ensures |Members(ids, chunks, terms, e)| == |Having(chunks, terms, e)|
    ensures forall id :: id in Members(ids, chunks, terms, e) <==> id in Having(chunks, terms, e)
  {
    MembersCount(ids, chunks, terms, e);
    assert Within(ids, Having(chunks, terms, e)) == Having(chunks, terms, e);
    forall id
      ensures id in Members(ids, chunks, terms, e) <==> id in Having(chunks, terms, e)
    {
      MembersAre(ids, chunks, terms, e, id);
    }
  }

  // a and b are different chunks that share a term of neither too few nor too many.
  ghost predicate Share(chunks: map<string, Chunk>, terms: Terms, least: nat, most: nat, across: bool, e: string,
                        a: string, b: string)
  {
    && a in Having(chunks, terms, e) && b in Having(chunks, terms, e) && a != b
    && least <= |Having(chunks, terms, e)| <= most
    && (across ==> chunks[a].source != chunks[b].source)
  }

  // The inner loop of CollectMembers: id joins the members of each of its terms.
  method AddMember(before: map<string, seq<string>>, terms: set<string>, id: string)
    returns (m: map<string, seq<string>>)
    ensures forall e :: e in m <==> e in before || e in terms
    ensures forall e :: e in m ==>
              m[e] == (if e in before then before[e] else []) + (if e in terms then [id] else [])
  {
    m := before;
    var left := terms;
    while left != {}
      invariant left <= terms
      invariant forall e :: e in m <==> e in before || (e in terms && e !in left)
      invariant forall e :: e in m ==>
                  m[e] == (if e in before then before[e] else []) + (if e in terms && e !in left then [id] else [])
      decreases left
    {
      var e :| e in left;
      m := m[e := (if e in m then m[e] else []) + [id]];
      left := left - {e};
    }
  }

  method CollectMembers(ids: seq<string>, chunks: map<string, Chunk>, terms: Terms)
    returns (m: map<string, seq<string>>)
    requires Text.Listing(ids, chunks.Keys)
    ensures forall e :: e in m <==> Having(chunks, terms, e) != {}
    ensures forall e :: e in m ==> m[e] == Members(ids, chunks, terms, e)
  {
    m := map[];
    for i := 0 to |ids|
      invariant Collected(m, ids[..i], chunks, terms)
    {
      var id := ids[i];
      assert id in chunks;
      ghost var before := m;
      m := AddMember(m, terms(chunks[id]), id);
      CollectedMore(before, m, ids, i, chunks, terms);
    }
    assert ids[..|ids|] == ids;
    forall e
      ensures e in m <==> Having(chunks, terms, e) != {}
    {
      MembersOfAll(ids, chunks, terms, e);
      if Members(ids, chunks, terms, e) != [] {
        assert Members(ids, chunks, terms, e)[0] in Having(chunks, terms, e);
      }
    }
  }

  ghost predicate Collected(m: map<string, seq<string>>, ids: seq<string>, chunks: map<string, Chunk>, terms: Terms) {
    forall e :: (e in m <==> Members(ids, chunks, terms, e) != []) &&
        (e in m ==> m[e] == Members(ids, chunks, terms, e))
  }

  lemma CollectedMore(before: map<string, seq<string>>, after: map<string, seq<string>>, ids: seq<string>, i: nat,
                      chunks: map<string, Chunk>, terms: Terms)
    requires i < |ids| && ids[i] in chunks && Collected(before, ids[..i], chunks, terms)
    requires forall e :: e in after <==> e in before || e in terms(chunks[ids[i]])
    requires forall e :: e in after ==>
               after[e] == (if e in before then before[e] else []) +
                 (if e in terms(chunks[ids[i]]) then [ids[i]] else [])
    ensures Collected(after, ids[..i + 1], chunks, terms)
  {
    assert ids[..i + 1][..i] == ids[..i];
    forall e
      ensures e in after <==> Members(ids[..i + 1], chunks, terms, e) != []
      ensures e in after ==> after[e] == Members(ids[..i + 1], chunks, terms, e)
    {
      assert e in before <==> Members(ids[..i], chunks, terms, e) != [];
    }
  }

  // ---------- the graph under construction ----------

  // Every new edge is of this kind and joins two of these chunks, allowed to be joined.
  ghost predicate OnlyAmong(before: Edges, after: Edges, kind: Kind, members: seq<string>, chunks: map<string, Chunk>,
                            across: bool)
  {
    forall a, b, k :: HasEdge(after, a, b, k) ==>
      HasEdge(before, a, b, k) || (k == kind && a in members && b in members && !(across && SameSource(chunks, a, b)))
  }

  ghost predicate SameSource(chunks: map<string, Chunk>, a: string, b: string) {
    a in chunks && b in chunks && chunks[a].source == chunks[b].source
  }

  // Which edges there may be.
  type Rel = (string, string, Kind) -> bool

  ghost predicate Only(edges: Edges, rel: Rel) {
    forall a, b, k :: HasEdge(edges, a, b, k) ==> rel(a, b, k)
  }

  ghost predicate MayFollow(rel: Rel, cs: seq<Chunk>) {
    forall i :: 0 <= i < |cs| - 1 ==> rel(cs[i].id, cs[i + 1].id, Adjacent) && rel(cs[i + 1].id, cs[i].id, Adjacent)
  }

  ghost predicate MayShare(rel: Rel, cs: seq<Chunk>, trim: Trim) {
    forall x, y :: 0 <= x < |cs| && 0 <= y < |cs| && Siblings(cs[x], cs[y], trim) ==> rel(cs[x].id, cs[y].id, Sibling)
  }

  class Builder {
    var chunks: map<string, Chunk>
    var collection: map<string, string>
    var edges: Edges

    ghost predicate Valid()
      reads this
    {
      Sound(edges, chunks.Keys)
    }

    constructor ()
      ensures Valid() && chunks == map[] && collection == map[] && edges == map[]
    {
      chunks := map[];
      collection := map[];
      edges := map[];
      new;
      assert forall a, b, k :: !HasEdge(edges, a, b, k);
    }

    method AddEdge(from: string, to: string, kind: Kind)
      modifies this`edges
      ensures edges == Added(old(edges), from, to, kind)
    {
      if from == to {
        return;
      }
      var es := Out(edges, from);
      for i := 0 to |es|
        invariant edges == old(edges)
        invariant forall j :: 0 <= j < i ==> es[j].to != to
      {
        if es[i].to == to {
          return;
        }
      }
      edges := edges[from := es + [Edge(to, kind)]];
    }

    // An edge each way.
    method Join(a: string, b: string, kind: Kind)
      requires Valid() && a in chunks && b in chunks
      modifies this`edges
      ensures Valid() && edges == Paired(old(edges), a, b, kind)
    {
      AddEdge(a, b, kind);
      AddEdge(b, a, kind);
      PairedSound(old(edges), a, b, kind, chunks.Keys);
    }

    // Joins every two of the members; across joins only chunks of different sources.
    method JoinAll(members: seq<string>, kind: Kind, across: bool)
      requires Valid() && forall i :: 0 <= i < |members| ==> members[i] in chunks
      modifies this`edges
      ensures Valid() && Joined(old(edges), edges, chunks, across, kind, members, |members|, 0)
    {
      for i := 0 to |members|
        invariant Valid() && Joined(old(edges), edges, chunks, across, kind, members, i, 0)
      {
        for j := i + 1 to |members|
          invariant Valid() && Joined(old(edges), edges, chunks, across, kind, members, i, j)
        {
          ghost var before := edges;
          if !across || chunks[members[i]].source != chunks[members[j]].source {
            Join(members[i], members[j], kind);
          }
          JoinedMore(old(edges), before, edges, chunks, across, kind, members, i, j);
        }
      }
    }

    // Joins the chunks that share one term, if they are of the band.
    method JoinTerm(e: string, members: seq<string>, terms: Terms, kind: Kind, least: nat, most: nat, across: bool)
      requires Valid() && |members| == |Having(chunks, terms, e)|
      requires forall id :: id in members <==> id in Having(chunks, terms, e)
      modifies this`edges
      ensures Valid() && Grew(old(edges), edges)
      ensures TermDone(edges, chunks, terms, least, most, across, e)
      ensures OnlyShared(old(edges), edges, kind, chunks, terms, least, most, across)
    {
      if least <= |members| <= most {
        ghost var before := edges;
        assert forall i :: 0 <= i < |members| ==> members[i] in Having(chunks, terms, e);
        JoinAll(members, kind, across);
        TermJoined(before, edges, members, kind, e, chunks, terms, least, most, across);
      }
    }

    // addEntityEdges and addHeadingTopicEdges: terms in order, each joining its chunks.
    method JoinShared(terms: Terms, kind: Kind, least: nat, most: nat, across: bool)
      requires Valid()
      modifies this`edges
      ensures Valid() && Grew(old(edges), edges)
      ensures AllShared(edges, chunks, terms, least, most, across)
      ensures OnlyShared(old(edges), edges, kind, chunks, terms, least, most, across)
    {
      var ids := Text.SortedKeys(chunks.Keys);
      var m := CollectMembers(ids, chunks, terms);
      var tokens := Text.SortedKeys(m.Keys);
      for i := 0 to |tokens|
        invariant Valid() && Grew(old(edges), edges)
        invariant SharedOf(edges, tokens[..i], chunks, terms, least, most, across)
        invariant OnlyShared(old(edges), edges, kind, chunks, terms, least, most, across)
      {
        assert tokens[i] in m;
        MembersOfAll(ids, chunks, terms, tokens[i]);
        ghost var before := edges;
        JoinTerm(tokens[i], m[tokens[i]], terms, kind, least, most, across);
        SharedStill(old(edges), before, edges, tokens, i, kind, chunks, terms, least, most, across);
      }
      assert tokens[..|tokens|] == tokens;
    }

    // Neighbours in the order given.
    method JoinAdjacent(cs: seq<Chunk>, ghost rel: Rel)
      requires Valid() && forall i :: 0 <= i < |cs| ==> cs[i].id in chunks
      requires MayFollow(rel, cs)
      modifies this`edges
      ensures Valid() && Grew(old(edges), edges) && (Only(old(edges), rel) ==> Only(edges, rel))
      ensures Chained(edges, cs)
    {
      var i := 0;
      while i + 1 < |cs|
        invariant Valid() && Grew(old(edges), edges) && (Only(old(edges), rel) ==> Only(edges, rel))
        invariant i <= |cs| && (cs != [] ==> i < |cs| && Chained(edges, cs[..i + 1]))
      {
        ghost var before := edges;
        Join(cs[i].id, cs[i + 1].id, Adjacent);
        AdjacentMore(before, edges, cs[i].id, cs[i + 1].id, rel);
        ChainedMore(before, edges, cs, i);
        i := i + 1;
      }
      assert cs != [] ==> cs[..i + 1] == cs;
    }

    // The chunks under one heading.
    method JoinHeading(cs: seq<Chunk>, trim: Trim, h: string, ids: seq<string>, ghost rel: Rel)
      requires Valid() && h != "" && ids == Under(cs, h, trim) && forall i :: 0 <= i < |cs| ==> cs[i].id in chunks
      requires MayShare(rel, cs, trim)
      modifies this`edges
      ensures Valid() && Grew(old(edges), edges) && (Only(old(edges), rel) ==> Only(edges, rel))
      ensures HeadingDone(edges, cs, trim, h)
    {
      ghost var before := edges;
      forall k | 0 <= k < |ids|
        ensures ids[k] in chunks
      {
        UnderAre(cs, h, trim, ids[k]);
      }
      JoinAll(ids, Sibling, false);
      SiblingsMore(before, edges, cs, trim, h, chunks);
      SiblingsOnly(before, edges, cs, trim, h, chunks, rel);
    }

    method JoinSiblings(cs: seq<Chunk>, trim: Trim, ghost rel: Rel)
      requires Valid() && forall i :: 0 <= i < |cs| ==> cs[i].id in chunks
      requires MayShare(rel, cs, trim)
      modifies this`edges
      ensures Valid() && Grew(old(edges), edges) && (Only(old(edges), rel) ==> Only(edges, rel))
      ensures SiblingsLinked(edges, cs, trim)
    {
      var byHeading, headings := GroupByHeading(cs, trim);
      for i := 0 to |headings|
        invariant Valid() && Grew(old(edges), edges) && (Only(old(edges), rel) ==> Only(edges, rel))
        invariant HeadingsDone(edges, cs, trim, headings[..i])
      {
        assert headings[i] in byHeading;
        ghost var before := edges;
        JoinHeading(cs, trim, headings[i], byHeading[headings[i]], rel);
        HeadingsMore(before, edges, cs, trim, headings, i);
      }
      assert headings[..|headings|] == headings;
      HeadingsAll(edges, cs, trim, headings, byHeading.Keys);
    }
  }

  ghost predicate HeadingsDone(edges: Edges, cs: seq<Chunk>, trim: Trim, headings: seq<string>) {
    forall h :: h in headings ==> HeadingDone(edges, cs, trim, h)
  }

  lemma HeadingsMore(before: Edges, after: Edges, cs: seq<Chunk>, trim: Trim, headings: seq<string>, i: nat)
    requires i < |headings| && HeadingsDone(before, cs, trim, headings[..i]) && Grew(before, after)
    requires HeadingDone(after, cs, trim, headings[i])
    ensures HeadingsDone(after, cs, trim, headings[..i + 1])
  {
    forall h | h in headings[..i + 1]
      ensures HeadingDone(after, cs, trim, h)
    {
      if h != headings[i] {
        assert h in headings[..i];
        HeadingStill(before, after, cs, trim, h);
      }
    }
  }

  lemma HeadingsAll(edges: Edges, cs: seq<Chunk>, trim: Trim, headings: seq<string>, keys: set<string>)
    requires HeadingsDone(edges, cs, trim, headings)
    requires forall h :: h in keys <==> h in headings
    requires forall h :: h in keys <==> h != "" && Under(cs, h, trim) != []
    ensures SiblingsLinked(edges, cs, trim)
  {
    forall x, y | 0 <= x < |cs| && 0 <= y < |cs| && Siblings(cs[x], cs[y], trim)
      ensures Linked(edges, cs[x].id, cs[y].id)
    {
      var h := trim(cs[x].heading);
      UnderAre(cs, h, trim, cs[x].id);
      assert h in headings;
      assert HeadingDone(edges, cs, trim, h);
    }
  }

  // Neighbours are linked.
  ghost predicate Chained(edges: Edges, cs: seq<Chunk>) {
    forall i :: 0 <= i < |cs| - 1 && cs[i].id != cs[i + 1].id ==> Linked(edges, cs[i].id, cs[i + 1].id)
  }

  lemma ChainedStill(before: Edges, after: Edges, cs: seq<Chunk>)
    requires Grew(before, after) && Chained(before, cs)
    ensures Chained(after, cs)
  {
    forall i | 0 <= i < |cs| - 1 && cs[i].id != cs[i + 1].id
      ensures Linked(after, cs[i].id, cs[i + 1].id)
    {
      LinkedGrew(before, after, cs[i].id, cs[i + 1].id);
    }
  }

  lemma ChainedMore(before: Edges, after: Edges, cs: seq<Chunk>, i: nat)
    requires i + 1 < |cs| && Grew(before, after) && Chained(before, cs[..i + 1])
    requires cs[i].id != cs[i + 1].id ==> Linked(after, cs[i].id, cs[i + 1].id)
    ensures Chained(after, cs[..i + 2])
  {
    ChainedStill(before, after, cs[..i + 1]);
    var longer, shorter := cs[..i + 2], cs[..i + 1];
    assert forall x :: 0 <= x <= i ==> longer[x] == shorter[x];
  }

  lemma AdjacentMore(before: Edges, after: Edges, a: string, b: string, rel: Rel)
    requires Symmetric(before) && after == Paired(before, a, b, Adjacent) && rel(a, b, Adjacent) && rel(b, a, Adjacent)
    ensures Grew(before, after) && (a != b ==> Linked(after, a, b)) && (Only(before, rel) ==> Only(after, rel))
  {
    PairedGrew(before, a, b, Adjacent);
    forall x, y, k | HasEdge(after, x, y, k)
      ensures HasEdge(before, x, y, k) || rel(x, y, k)
    {
      PairedEdges(before, a, b, Adjacent, x, y, k);
    }
  }

  predicate Siblings(a: Chunk, b: Chunk, trim: Trim) {
    trim(a.heading) == trim(b.heading) != "" && a.id != b.id
  }

  ghost predicate SiblingsLinked(edges: Edges, cs: seq<Chunk>, trim: Trim) {
    forall x, y :: 0 <= x < |cs| && 0 <= y < |cs| && Siblings(cs[x], cs[y], trim) ==> Linked(edges, cs[x].id, cs[y].id)
  }

  ghost predicate HeadingDone(edges: Edges, cs: seq<Chunk>, trim: Trim, h: string) {
    forall x, y :: 0 <= x < |cs| && 0 <= y < |cs| && Siblings(cs[x], cs[y], trim) && trim(cs[x].heading) == h ==>
      Linked(edges, cs[x].id, cs[y].id)
  }

  lemma HeadingStill(before: Edges, after: Edges, cs: seq<Chunk>, trim: Trim, h: string)
    requires Grew(before, after) && HeadingDone(before, cs, trim, h)
    ensures HeadingDone(after, cs, trim, h)
  {
    forall x, y | 0 <= x < |cs| && 0 <= y < |cs| && Siblings(cs[x], cs[y], trim) && trim(cs[x].heading) == h
      ensures Linked(after, cs[x].id, cs[y].id)
    {
      LinkedGrew(before, after, cs[x].id, cs[y].id);
    }
  }

  // The ids of the chunks under a heading.
  function Under(cs: seq<Chunk>, h: string, trim: Trim): seq<string> {
    if cs == [] then []
    else Under(cs[..|cs| - 1], h, trim) + (if trim(cs[|cs| - 1].heading) == h then [cs[|cs| - 1].id] else [])
  }

  lemma {:induction false} UnderAre(cs: seq<Chunk>, h: string, trim: Trim, id: string)
    ensures id in Under(cs, h, trim) <==> exists i :: 0 <= i < |cs| && cs[i].id == id && trim(cs[i].heading) == h
  {
    if cs != [] {
      var n := |cs| - 1;
      UnderAre(cs[..n], h, trim, id);
      if id in Under(cs[..n], h, trim) {
        var i :| 0 <= i < n && cs[..n][i].id == id && trim(cs[..n][i].heading) == h;
        assert cs[i].id == id && trim(cs[i].heading) == h;
      }
      if i :| 0 <= i < |cs| && cs[i].id == id && trim(cs[i].heading) == h {
        assert i < n ==> cs[..n][i] == cs[i];
      }
    }
  }

  lemma SiblingsMore(before: Edges, after: Edges, cs: seq<Chunk>, trim: Trim, h: string, chunks: map<string, Chunk>)
    requires Symmetric(after)
    requires Joined(before, after, chunks, false, Sibling, Under(cs, h, trim), |Under(cs, h, trim)|, 0)
    ensures HeadingDone(after, cs, trim, h)
  {
    var ids := Under(cs, h, trim);
    forall x, y | 0 <= x < |cs| && 0 <= y < |cs| && Siblings(cs[x], cs[y], trim) && trim(cs[x].heading) == h
      ensures Linked(after, cs[x].id, cs[y].id)
    {
      UnderAre(cs, h, trim, cs[x].id);
      UnderAre(cs, h, trim, cs[y].id);
      var i :| 0 <= i < |ids| && ids[i] == cs[x].id;
      var j :| 0 <= j < |ids| && ids[j] == cs[y].id;
      assert i < j ==> JoinedPair(after, chunks, false, ids[i], ids[j]);
      assert j < i ==> JoinedPair(after, chunks, false, ids[j], ids[i]);
      LinkedBack(after, cs[x].id, cs[y].id);
    }
  }

  lemma SiblingsOnly(before: Edges, after: Edges, cs: seq<Chunk>, trim: Trim, h: string, chunks: map<string, Chunk>,
                     rel: Rel)
    requires OnlyAmong(before, after, Sibling, Under(cs, h, trim), chunks, false) && h != "" && MayShare(rel, cs, trim)
    requires forall a, b, k :: HasEdge(after, a, b, k) ==> a != b
    ensures Only(before, rel) ==> Only(after, rel)
  {
    forall a, b, k | HasEdge(after, a, b, k) && !HasEdge(before, a, b, k)
      ensures rel(a, b, k)
    {
      UnderAre(cs, h, trim, a);
      UnderAre(cs, h, trim, b);
      var x :| 0 <= x < |cs| && cs[x].id == a && trim(cs[x].heading) == h;
      var y :| 0 <= y < |cs| && cs[y].id == b && trim(cs[y].heading) == h;
      assert Siblings(cs[x], cs[y], trim);
    }
  }

  method GroupByHeading(cs: seq<Chunk>, trim: Trim) returns (byHeading: map<string, seq<string>>, headings: seq<string>)
    ensures forall h :: h in byHeading ==> byHeading[h] == Under(cs, h, trim)
    ensures forall h :: h in byHeading <==> h in headings
    ensures forall h :: h in byHeading <==> h != "" && Under(cs, h, trim) != []
  {
    byHeading, headings := map[], [];
    for i := 0 to |cs|
      invariant forall h :: h in byHeading ==> byHeading[h] == Under(cs[..i], h, trim)
      invariant forall h :: h in byHeading <==> h in headings
      invariant forall h :: h in byHeading <==> h != "" && Under(cs[..i], h, trim) != []
    {
      assert cs[..i + 1][..i] == cs[..i];
      var h := trim(cs[i].heading);
      if h != "" {
        if h !in byHeading {
          headings := headings + [h];
        }
        byHeading := byHeading[h := (if h in byHeading then byHeading[h] else []) + [cs[i].id]];
      }
    }
    assert cs[..|cs|] == cs;
  }

  ghost predicate PairsDone(edges: Edges, chunks: map<string, Chunk>, across: bool, members: seq<string>, i: nat,
                            j: nat)
  {
    forall x, y :: 0 <= x < y < |members| && (x < i || (x == i && y < j)) ==>
          JoinedPair(edges, chunks, across, members[x], members[y])
  }

  // The pairs of the members up to (i, j) are joined, and nothing else changed.
  ghost predicate Joined(first: Edges, edges: Edges, chunks: map<string, Chunk>, across: bool, kind: Kind,
                         members: seq<string>, i: nat, j: nat)
  {
    Grew(first, edges) && OnlyAmong(first, edges, kind, members, chunks, across) &&
      PairsDone(edges, chunks, across, members, i, j)
  }

  lemma JoinedMore(first: Edges, before: Edges, after: Edges, chunks: map<string, Chunk>, across: bool, kind: Kind,
                   members: seq<string>, i: nat, j: nat)
    requires i < j < |members| && Joined(first, before, chunks, across, kind, members, i, j) && Symmetric(before)
    requires after == if across && SameSource(chunks, members[i], members[j]) then before
             else Paired(before, members[i], members[j], kind)
    ensures Joined(first, after, chunks, across, kind, members, i, j + 1)
  {
    if !(across && SameSource(chunks, members[i], members[j])) {
      AmongStill(first, before, after, kind, members, i, j, chunks, across);
      PairedGrew(before, members[i], members[j], kind);
      StillJoined(before, after, chunks, across);
    }
    assert JoinedPair(after, chunks, across, members[i], members[j]);
  }

  ghost predicate TermDone(edges: Edges, chunks: map<string, Chunk>, terms: Terms, least: nat, most: nat, across: bool,
                           e: string)
  {
    forall a, b :: Share(chunks, terms, least, most, across, e, a, b) ==> Linked(edges, a, b)
  }

  // Every two chunks that share a term of the band are linked.
  ghost predicate AllShared(edges: Edges, chunks: map<string, Chunk>, terms: Terms, least: nat, most: nat,
                            across: bool)
  {
    forall e, a, b :: Share(chunks, terms, least, most, across, e, a, b) ==> Linked(edges, a, b)
  }

  // Every new edge is of this kind and joins chunks that share a term of the band.
  ghost predicate OnlyShared(before: Edges, after: Edges, kind: Kind, chunks: map<string, Chunk>, terms: Terms,
                             least: nat, most: nat, across: bool)
  {
    forall a, b, k :: HasEdge(after, a, b, k) ==>
          HasEdge(before, a, b, k) || (k == kind && SomeShared(chunks, terms, least, most, across, a, b))
  }

  ghost predicate SomeShared(chunks: map<string, Chunk>, terms: Terms, least: nat, most: nat, across: bool, a: string,
                             b: string)
  {
    exists e :: Share(chunks, terms, least, most, across, e, a, b)
  }

  // The pairs that share one of these terms are linked.
  ghost predicate SharedOf(edges: Edges, tokens: seq<string>, chunks: map<string, Chunk>, terms: Terms, least: nat,
                           most: nat, across: bool)
  {
    forall e, a, b :: e in tokens && Share(chunks, terms, least, most, across, e, a, b) ==> Linked(edges, a, b)
  }

  // One term's members joined.
  lemma TermJoined(before: Edges, after: Edges, members: seq<string>, kind: Kind, e: string,
                   chunks: map<string, Chunk>, terms: Terms, least: nat, most: nat, across: bool)
    requires Symmetric(after) && least <= |Having(chunks, terms, e)| <= most
    requires forall id :: id in members <==> id in Having(chunks, terms, e)
    requires Joined(before, after, chunks, across, kind, members, |members|, 0)
    requires forall a, b, k :: HasEdge(after, a, b, k) ==> a != b
    ensures TermDone(after, chunks, terms, least, most, across, e)
    ensures OnlyShared(before, after, kind, chunks, terms, least, most, across)
  {
    forall a, b | Share(chunks, terms, least, most, across, e, a, b)
      ensures Linked(after, a, b)
    {
      var i :| 0 <= i < |members| && members[i] == a;
      var j :| 0 <= j < |members| && members[j] == b;
      assert i < j ==> JoinedPair(after, chunks, across, a, b);
      assert j < i ==> JoinedPair(after, chunks, across, b, a);
      LinkedBack(after, a, b);
    }
    forall a, b, k | HasEdge(after, a, b, k) && !HasEdge(before, a, b, k)
      ensures k == kind && SomeShared(chunks, terms, least, most, across, a, b)
    {
      assert Share(chunks, terms, least, most, across, e, a, b);
    }
  }

  lemma SharedStill(first: Edges, before: Edges, after: Edges, tokens: seq<string>, i: nat, kind: Kind,
                    chunks: map<string, Chunk>, terms: Terms, least: nat, most: nat, across: bool)
    requires i < |tokens| && Grew(first, before) && Grew(before, after)
    requires SharedOf(before, tokens[..i], chunks, terms, least, most, across)
    requires OnlyShared(first, before, kind, chunks, terms, least, most, across)
    requires OnlyShared(before, after, kind, chunks, terms, least, most, across)
    requires TermDone(after, chunks, terms, least, most, across, tokens[i])
    ensures Grew(first, after)
    ensures SharedOf(after, tokens[..i + 1], chunks, terms, least, most, across)
    ensures OnlyShared(first, after, kind, chunks, terms, least, most, across)
  {
    forall e, a, b | e in tokens[..i + 1] && Share(chunks, terms, least, most, across, e, a, b)
      ensures Linked(after, a, b)
    {
      if e != tokens[i] {
        assert e in tokens[..i];
        LinkedGrew(before, after, a, b);
      }
    }
  }

  // Different chunks are linked, unless they are to be left apart.
  ghost predicate JoinedPair(edges: Edges, chunks: map<string, Chunk>, across: bool, a: string, b: string) {
    a != b && !(across && SameSource(chunks, a, b)) ==> Linked(edges, a, b)
  }

  lemma StillJoined(before: Edges, after: Edges, chunks: map<string, Chunk>, across: bool)
    requires Grew(before, after)
    ensures forall a, b :: JoinedPair(before, chunks, across, a, b) ==> JoinedPair(after, chunks, across, a, b)
  {
    forall a, b | JoinedPair(before, chunks, across, a, b)
      ensures JoinedPair(after, chunks, across, a, b)
    {
      if Linked(before, a, b) {
        LinkedGrew(before, after, a, b);
      }
    }
  }

  lemma AmongStill(first: Edges, before: Edges, after: Edges, kind: Kind, members: seq<string>, i: nat, j: nat,
                   chunks: map<string, Chunk>, across: bool)
    requires i < |members| && j < |members| && Symmetric(before) &&
             after == Paired(before, members[i], members[j], kind)
    requires !(across && SameSource(chunks, members[i], members[j]))
    requires OnlyAmong(first, before, kind, members, chunks, across) && Grew(first, before)
    ensures OnlyAmong(first, after, kind, members, chunks, across) && Grew(first, after)
  {
    PairedGrew(before, members[i], members[j], kind);
    forall a, b, k | HasEdge(after, a, b, k)
      ensures HasEdge(first, a, b, k) ||
              (k == kind && a in members && b in members && !(across && SameSource(chunks, a, b)))
    {
      PairedEdges(before, members[i], members[j], kind, a, b, k);
    }
  }

  // ---------- the whole corpus ----------

  function FromSource(chunks: seq<Chunk>, source: string): seq<Chunk> {
    if chunks == [] then []
    else
      FromSource(chunks[..|chunks| - 1], source) +
      (if chunks[|chunks| - 1].source == source then [chunks[|chunks| - 1]] else [])
  }

  lemma {:induction false} FromAre(chunks: seq<Chunk>, source: string, ch: Chunk)
    ensures ch in FromSource(chunks, source) <==> ch in chunks && ch.source == source
  {
    if chunks != [] {
      FromAre(chunks[..|chunks| - 1], source, ch);
      assert chunks == chunks[..|chunks| - 1] + [chunks[|chunks| - 1]];
    }
  }

  predicate ByOrdinal(a: Chunk, b: Chunk) {
    a.ordinal <= b.ordinal
  }

  // Chunks of one source under one heading are linked.
  ghost predicate SourceSiblings(edges: Edges, chunks: seq<Chunk>, trim: Trim, source: string) {
    forall x, y :: x in chunks && y in chunks && x.source == y.source == source && Siblings(x, y, trim) ==>
          Linked(edges, x.id, y.id)
  }

  lemma SourceSiblingsStill(before: Edges, after: Edges, chunks: seq<Chunk>, trim: Trim, source: string)
    requires Grew(before, after) && SourceSiblings(before, chunks, trim, source)
    ensures SourceSiblings(after, chunks, trim, source)
  {
    forall x, y | x in chunks && y in chunks && x.source == y.source == source && Siblings(x, y, trim)
      ensures Linked(after, x.id, y.id)
    {
      LinkedGrew(before, after, x.id, y.id);
    }
  }

  lemma SourceLinked(edges: Edges, chunks: seq<Chunk>, cs: seq<Chunk>, trim: Trim, source: string)
    requires multiset(cs) == multiset(FromSource(chunks, source)) && SiblingsLinked(edges, cs, trim)
    ensures SourceSiblings(edges, chunks, trim, source)
  {
    forall x, y | x in chunks && y in chunks && x.source == y.source == source && Siblings(x, y, trim)
      ensures Linked(edges, x.id, y.id)
    {
      FromAre(chunks, source, x);
      FromAre(chunks, source, y);
      assert x in multiset(cs) && y in multiset(cs);
      var i :| 0 <= i < |cs| && cs[i] == x;
      var j :| 0 <= j < |cs| && cs[j] == y;
    }
  }

  // The chunks of a source in an order by ordinal; chunks of the same ordinal may stand
  // in any order.
  ghost predicate InOrder(cs: seq<Chunk>, chunks: seq<Chunk>, source: string) {
    Sorted(cs, ByOrdinal) && multiset(cs) == multiset(FromSource(chunks, source))
  }

  // In some such order neighbours are linked.
  ghost predicate SourceChained(edges: Edges, chunks: seq<Chunk>, source: string) {
    exists cs :: InOrder(cs, chunks, source) && Chained(edges, cs)
  }

  lemma SourceChainedStill(before: Edges, after: Edges, chunks: seq<Chunk>, source: string)
    requires Grew(before, after) && SourceChained(before, chunks, source)
    ensures SourceChained(after, chunks, source)
  {
    var cs :| InOrder(cs, chunks, source) && Chained(before, cs);
    ChainedStill(before, after, cs);
  }

  // No chunk of their source has an ordinal between theirs.
  ghost predicate NoneBetween(chunks: seq<Chunk>, x: Chunk, y: Chunk) {
    forall z :: z in chunks && z.source == x.source ==>
      !(x.ordinal < z.ordinal < y.ordinal) && !(y.ordinal < z.ordinal < x.ordinal)
  }

  // Two chunks of one collection and source, next to each other.
  ghost predicate AreNeighbours(chunks: seq<Chunk>, a: string, b: string) {
    exists x, y :: x in chunks && y in chunks && x.id == a && y.id == b && x.source == y.source &&
      NoneBetween(chunks, x, y)
  }

  // Two chunks of one collection and source, under one heading.
  ghost predicate AreSiblings(chunks: seq<Chunk>, trim: Trim, a: string, b: string) {
    exists x, y :: x in chunks && y in chunks && x.id == a && y.id == b && x.source == y.source && Siblings(x, y, trim)
  }

  ghost predicate Allows(rel: Rel, chunks: seq<Chunk>, trim: Trim) {
    && (forall a, b :: AreNeighbours(chunks, a, b) ==> rel(a, b, Adjacent))
    && (forall a, b :: AreSiblings(chunks, trim, a, b) ==> rel(a, b, Sibling))
  }

  lemma InSource(cs: seq<Chunk>, chunks: seq<Chunk>, source: string, i: nat)
    requires multiset(cs) == multiset(FromSource(chunks, source)) && i < |cs|
    ensures cs[i] in chunks && cs[i].source == source
  {
    assert cs[i] in multiset(cs);
    FromAre(chunks, source, cs[i]);
  }

  lemma NoOrdinalBetween(cs: seq<Chunk>, chunks: seq<Chunk>, source: string, i: nat, z: Chunk)
    requires InOrder(cs, chunks, source) && i + 1 < |cs| && z in chunks && z.source == source
    ensures !(cs[i].ordinal < z.ordinal < cs[i + 1].ordinal)
  {
    FromAre(chunks, source, z);
    assert z in multiset(cs);
    var j :| 0 <= j < |cs| && cs[j] == z;
    assert j < i ==> ByOrdinal(cs[j], cs[i]);
    assert i + 1 < j ==> ByOrdinal(cs[i + 1], cs[j]);
  }

  // Between neighbours of the order there is no further ordinal.
  lemma NextInOrder(cs: seq<Chunk>, chunks: seq<Chunk>, source: string, i: nat)
    requires InOrder(cs, chunks, source) && i + 1 < |cs|
    ensures AreNeighbours(chunks, cs[i].id, cs[i + 1].id) && AreNeighbours(chunks, cs[i + 1].id, cs[i].id)
  {
    InSource(cs, chunks, source, i);
    InSource(cs, chunks, source, i + 1);
    assert ByOrdinal(cs[i], cs[i + 1]);
    forall z | z in chunks && z.source == source
      ensures !(cs[i].ordinal < z.ordinal < cs[i + 1].ordinal)
    {
      NoOrdinalBetween(cs, chunks, source, i, z);
    }
    assert NoneBetween(chunks, cs[i], cs[i + 1]) && NoneBetween(chunks, cs[i + 1], cs[i]);
  }

  lemma SourceAllows(cs: seq<Chunk>, chunks: seq<Chunk>, source: string, trim: Trim, rel: Rel)
    requires InOrder(cs, chunks, source) && Allows(rel, chunks, trim)
    ensures MayFollow(rel, cs) && MayShare(rel, cs, trim)
  {
    forall i | 0 <= i < |cs| - 1
      ensures rel(cs[i].id, cs[i + 1].id, Adjacent) && rel(cs[i + 1].id, cs[i].id, Adjacent)
    {
      NextInOrder(cs, chunks, source, i);
    }
    forall x, y | 0 <= x < |cs| && 0 <= y < |cs| && Siblings(cs[x], cs[y], trim)
      ensures rel(cs[x].id, cs[y].id, Sibling)
    {
      InSource(cs, chunks, source, x);
      InSource(cs, chunks, source, y);
      assert AreSiblings(chunks, trim, cs[x].id, cs[y].id);
    }
  }

  // Each source has its neighbours and its siblings linked.
  ghost predicate SourceLinks(edges: Edges, chunks: seq<Chunk>, trim: Trim, source: string) {
    SourceSiblings(edges, chunks, trim, source) && SourceChained(edges, chunks, source)
  }

  lemma SourceLinksStill(before: Edges, after: Edges, chunks: seq<Chunk>, trim: Trim, source: string)
    requires Grew(before, after) && SourceLinks(before, chunks, trim, source)
    ensures SourceLinks(after, chunks, trim, source)
  {
    SourceSiblingsStill(before, after, chunks, trim, source);
    SourceChainedStill(before, after, chunks, source);
  }

  // One source: sorted by ordinal, neighbours joined, then siblings.
  method AddSource(b: Builder, chunks: seq<Chunk>, source: string, trim: Trim, ghost rel: Rel)
    requires b.Valid() && forall ch :: ch in chunks ==> ch.id in b.chunks
    requires Allows(rel, chunks, trim)
    modifies b`edges
    ensures b.Valid() && Grew(old(b.edges), b.edges) && (Only(old(b.edges), rel) ==> Only(b.edges, rel))
    ensures SourceLinks(b.edges, chunks, trim, source)
  {
    var cs := Sort(FromSource(chunks, source), ByOrdinal);
    forall i | 0 <= i < |cs|
      ensures cs[i].id in b.chunks
    {
      InSource(cs, chunks, source, i);
    }
    SourceAllows(cs, chunks, source, trim, rel);
    b.JoinAdjacent(cs, rel);
    ghost var before := b.edges;
    b.JoinSiblings(cs, trim, rel);
    ChainedStill(before, b.edges, cs);
    SourceLinked(b.edges, chunks, cs, trim, source);
  }

  // The chunks by id: of those with the same id the last.
  function Put(m: map<string, Chunk>, cs: seq<Chunk>): map<string, Chunk> {
    if cs == [] then m else Put(m, cs[..|cs| - 1])[cs[|cs| - 1].id := cs[|cs| - 1]]
  }

  function PutName(m: map<string, string>, cs: seq<Chunk>, name: string): map<string, string> {
    if cs == [] then m else PutName(m, cs[..|cs| - 1], name)[cs[|cs| - 1].id := name]
  }

  lemma {:induction false} PutKeys(m: map<string, Chunk>, cs: seq<Chunk>)
    ensures m.Keys <= Put(m, cs).Keys && forall ch :: ch in cs ==> ch.id in Put(m, cs)
  {
    if cs != [] {
      PutKeys(m, cs[..|cs| - 1]);
      assert cs == cs[..|cs| - 1] + [cs[|cs| - 1]];
    }
  }

  method Record(b: Builder, c: Collection)
    requires b.Valid()
    modifies b`chunks, b`collection
    ensures b.Valid() && b.chunks == Put(old(b.chunks), c.chunks)
    ensures b.collection == PutName(old(b.collection), c.chunks, c.name)
  {
    for i := 0 to |c.chunks|
      invariant b.Valid() && b.chunks == Put(old(b.chunks), c.chunks[..i])
      invariant b.collection == PutName(old(b.collection), c.chunks[..i], c.name)
    {
      assert c.chunks[..i + 1][..i] == c.chunks[..i];
      var ch := c.chunks[i];
      ghost var known := b.chunks.Keys;
      b.chunks := b.chunks[ch.id := ch];
      b.collection := b.collection[ch.id := c.name];
      SoundInMore(b.edges, known, b.chunks.Keys);
    }
    assert c.chunks[..|c.chunks|] == c.chunks;
  }

  method AddCollection(b: Builder, c: Collection, trim: Trim, ghost rel: Rel)
    requires b.Valid() && Allows(rel, c.chunks, trim)
    modifies b
    ensures b.Valid() && b.chunks == Put(old(b.chunks), c.chunks)
    ensures b.collection == PutName(old(b.collection), c.chunks, c.name)
    ensures Grew(old(b.edges), b.edges) && (Only(old(b.edges), rel) ==> Only(b.edges, rel))
    ensures CorpusLinks(b.edges, c.chunks, trim)
  {
    Record(b, c);
    PutKeys(old(b.chunks), c.chunks);
    ghost var known, names := b.chunks, b.collection;
    var sources := Text.SortedKeys(set ch | ch in c.chunks :: ch.source);
    for i := 0 to |sources|
      invariant b.Valid() && b.chunks == known && b.collection == names
      invariant Grew(old(b.edges), b.edges) && (Only(old(b.edges), rel) ==> Only(b.edges, rel))
      invariant forall s :: s in sources[..i] ==> SourceLinks(b.edges, c.chunks, trim, s)
    {
      ghost var before := b.edges;
      AddSource(b, c.chunks, sources[i], trim, rel);
      SourcesMore(before, b.edges, c.chunks, trim, sources, i);
    }
    assert sources[..|sources|] == sources;
    SourcesAll(b.edges, c.chunks, trim, sources);
  }

  lemma SourcesMore(before: Edges, after: Edges, chunks: seq<Chunk>, trim: Trim, sources: seq<string>, i: nat)
    requires i < |sources| && Grew(before, after) && SourceLinks(after, chunks, trim, sources[i])
    requires forall s :: s in sources[..i] ==> SourceLinks(before, chunks, trim, s)
    ensures forall s :: s in sources[..i + 1] ==> SourceLinks(after, chunks, trim, s)
  {
    forall s | s in sources[..i + 1]
      ensures SourceLinks(after, chunks, trim, s)
    {
      if s != sources[i] {
        assert s in sources[..i];
        SourceLinksStill(before, after, chunks, trim, s);
      }
    }
  }

  // Every source of the collection has its neighbours and its siblings linked.
  ghost predicate CorpusLinks(edges: Edges, chunks: seq<Chunk>, trim: Trim) {
    forall source :: SourceLinks(edges, chunks, trim, source)
  }

  lemma NoSource(edges: Edges, chunks: seq<Chunk>, trim: Trim, source: string)
    requires forall ch :: ch in chunks ==> ch.source != source
    ensures SourceLinks(edges, chunks, trim, source)
  {
    var cs := FromSource(chunks, source);
    if cs != [] {
      FromAre(chunks, source, cs[0]);
    }
    assert InOrder([], chunks, source) && Chained(edges, []);
  }

  lemma SourcesAll(edges: Edges, chunks: seq<Chunk>, trim: Trim, sources: seq<string>)
    requires forall s :: s in sources ==> SourceLinks(edges, chunks, trim, s)
    requires forall ch :: ch in chunks ==> ch.source in sources
    ensures CorpusLinks(edges, chunks, trim)
  {
    forall source
      ensures SourceLinks(edges, chunks, trim, source)
    {
      if source !in sources {
        NoSource(edges, chunks, trim, source);
      }
    }
  }

  // The collections the graph is built over.
  predicate Included(collections: seq<Option<Collection>>, i: nat) {
    i < |collections| && collections[i].Some? && collections[i].value.kind != "memory"
  }

  ghost predicate AllLinks(edges: Edges, collections: seq<Option<Collection>>, n: nat, trim: Trim) {
    forall i :: 0 <= i < n && Included(collections, i) ==> CorpusLinks(edges, collections[i].value.chunks, trim)
  }

  lemma AllLinksStill(before: Edges, after: Edges, collections: seq<Option<Collection>>, n: nat, trim: Trim)
    requires Grew(before, after) && AllLinks(before, collections, n, trim)
    ensures AllLinks(after, collections, n, trim)
  {
    forall i, source | 0 <= i < n && Included(collections, i)
      ensures SourceLinks(after, collections[i].value.chunks, trim, source)
    {
      assert CorpusLinks(before, collections[i].value.chunks, trim);
      SourceLinksStill(before, after, collections[i].value.chunks, trim, source);
    }
  }

  // The chunks of the collections, by id, and the names of their collections.
  function Corpus(collections: seq<Option<Collection>>): map<string, Chunk> {
    if collections == [] then map[]
    else
      var n := |collections| - 1;
      if Included(collections, n) then Put(Corpus(collections[..n]), collections[n].value.chunks)
      else Corpus(collections[..n])
  }

  function CorpusNames(collections: seq<Option<Collection>>): map<string, string> {
    if collections == [] then map[]
    else
      var n := |collections| - 1;
      if Included(collections, n)
      then PutName(CorpusNames(collections[..n]), collections[n].value.chunks, collections[n].value.name)
      else CorpusNames(collections[..n])
  }

  // Every chunk of a collection that is there and no memory, under its id; of those with
  // one id the last, with the name of its collection.
  lemma CorpusMeans(collections: seq<Option<Collection>>, next: Option<Collection>)
    ensures Corpus([]) == map[] && CorpusNames([]) == map[]
    ensures next.None? || next.value.kind == "memory" ==>
              && Corpus(collections + [next]) == Corpus(collections)
              && CorpusNames(collections + [next]) == CorpusNames(collections)
    ensures next.Some? && next.value.kind != "memory" ==>
              && Corpus(collections + [next]) == Put(Corpus(collections), next.value.chunks)
              && CorpusNames(collections + [next]) ==
                 PutName(CorpusNames(collections), next.value.chunks, next.value.name)
  {
    assert (collections + [next])[..|collections|] == collections;
  }

  lemma PutMeans(m: map<string, Chunk>, names: map<string, string>, cs: seq<Chunk>, ch: Chunk, name: string)
    ensures Put(m, []) == m && PutName(names, [], name) == names
    ensures Put(m, cs + [ch]) == Put(m, cs)[ch.id := ch]
    ensures PutName(names, cs + [ch], name) == PutName(names, cs, name)[ch.id := name]
  {
    assert (cs + [ch])[..|cs|] == cs;
  }

  // What an edge between chunks of one source stands for.
  ghost predicate StructureMeans(collections: seq<Option<Collection>>, trim: Trim, a: string, b: string, k: Kind) {
    exists i :: 0 <= i < |collections| && collections[i].Some? && collections[i].value.kind != "memory" &&
      ((k == Adjacent && AreNeighbours(collections[i].value.chunks, a, b)) ||
       (k == Sibling && AreSiblings(collections[i].value.chunks, trim, a, b)))
  }

  ghost function Meant(collections: seq<Option<Collection>>, trim: Trim): Rel {
    (a, b, k) => StructureMeans(collections, trim, a, b, k)
  }

  // What every edge stands for.
  ghost predicate EdgeMeans(collections: seq<Option<Collection>>, trim: Trim, entities: Terms, tokens: Terms, a: string,
                            b: string, k: Kind)
  {
    match k
    case Entity => SomeShared(Corpus(collections), entities, 2, 64, false, a, b)
    case Topic => SomeShared(Corpus(collections), tokens, 2, 12, true, a, b)
    case _ => StructureMeans(collections, trim, a, b, k)
  }

  ghost predicate KindsMean(edges: Edges, collections: seq<Option<Collection>>, trim: Trim, entities: Terms,
                            tokens: Terms)
  {
    forall a, b, k :: HasEdge(edges, a, b, k) ==> EdgeMeans(collections, trim, entities, tokens, a, b, k)
  }

  method AddStructure(b: Builder, collections: seq<Option<Collection>>, trim: Trim)
    requires b.Valid() && b.chunks == map[] && b.collection == map[] && Only(b.edges, Meant(collections, trim))
    modifies b
    ensures b.Valid() && b.chunks == Corpus(collections) && b.collection == CorpusNames(collections)
    ensures Only(b.edges, Meant(collections, trim)) && AllLinks(b.edges, collections, |collections|, trim)
  {
    for i := 0 to |collections|
      invariant b.Valid() && b.chunks == Corpus(collections[..i]) && b.collection == CorpusNames(collections[..i])
      invariant Only(b.edges, Meant(collections, trim)) && AllLinks(b.edges, collections, i, trim)
    {
      assert collections[..i + 1][..i] == collections[..i];
      if collections[i].Some? && collections[i].value.kind != "memory" {
        ghost var before := b.edges;
        AddCollection(b, collections[i].value, trim, Meant(collections, trim));
        AllLinksStill(before, b.edges, collections, i, trim);
      }
    }
    assert collections[..|collections|] == collections;
  }

  method BuildGraph(collections: seq<Option<Collection>>, trim: Trim, entities: Terms, tokens: Terms)
    returns (b: Builder)
    ensures fresh(b) && b.Valid() && b.chunks == Corpus(collections) && b.collection == CorpusNames(collections)
    ensures forall i :: 0 <= i < |collections| && collections[i].Some? && collections[i].value.kind != "memory" ==>
              CorpusLinks(b.edges, collections[i].value.chunks, trim)
    ensures AllShared(b.edges, b.chunks, entities, 2, 64, false)
    ensures AllShared(b.edges, b.chunks, tokens, 2, 12, true)
    ensures KindsMean(b.edges, collections, trim, entities, tokens)
  {
    b := new Builder();
    assert Only(b.edges, Meant(collections, trim));
    AddStructure(b, collections, trim);
    ghost var structure := b.edges;
    b.JoinShared(entities, Entity, MIN_ENTITY_CHUNKS, MAX_ENTITY_CHUNKS, false);
    ghost var linked := b.edges;
    AllLinksStill(structure, linked, collections, |collections|, trim);
    b.JoinShared(tokens, Topic, MIN_TOPIC_CHUNKS, MAX_TOPIC_CHUNKS, true);
    AllLinksStill(linked, b.edges, collections, |collections|, trim);
    SharedGrew(linked, b.edges, b.chunks, entities, MIN_ENTITY_CHUNKS, MAX_ENTITY_CHUNKS, false);
    EveryKind(structure, linked, b.edges, collections, trim, entities, tokens);
  }

  lemma SharedGrew(before: Edges, after: Edges, chunks: map<string, Chunk>, terms: Terms, least: nat, most: nat,
                   across: bool)
    requires Grew(before, after) && AllShared(before, chunks, terms, least, most, across)
    ensures AllShared(after, chunks, terms, least, most, across)
  {
    forall e, a, b | Share(chunks, terms, least, most, across, e, a, b)
      ensures Linked(after, a, b)
    {
      LinkedGrew(before, after, a, b);
    }
  }

  lemma EveryKind(structure: Edges, linked: Edges, after: Edges, collections: seq<Option<Collection>>, trim: Trim,
                  entities: Terms, tokens: Terms)
    requires Only(structure, Meant(collections, trim))
    requires OnlyShared(structure, linked, Entity, Corpus(collections), entities, MIN_ENTITY_CHUNKS, MAX_ENTITY_CHUNKS,
                        false)
    requires OnlyShared(linked, after, Topic, Corpus(collections), tokens, MIN_TOPIC_CHUNKS, MAX_TOPIC_CHUNKS, true)
    ensures KindsMean(after, collections, trim, entities, tokens)
  {
    forall a, b, k | HasEdge(after, a, b, k)
      ensures EdgeMeans(collections, trim, entities, tokens, a, b, k)
    {
      if HasEdge(structure, a, b, k) {
        assert Meant(collections, trim)(a, b, k);
      }
    }
  }
}
