/** Bounded breadth-first expansion (internal/rag/graph.go: Expand). */
module GraphExpand {
  import opened Graph
  import opened Search

  const MAX_GRAPH_EXPAND := 5

  // ---------- the full breadth-first order ----------

  // The ids seen so far, and those found in this level, in order.
  datatype Level = Level(seen: set<string>, found: seq<string>)

  function VisitEdge(known: set<string>, s: Level, e: Edge): Level {
    if e.to in s.seen then s else Level(s.seen + {e.to}, if e.to in known then s.found + [e.to] else s.found)
  }

  function VisitEdges(known: set<string>, s: Level, es: seq<Edge>): Level {
    if es == [] then s else VisitEdge(known, VisitEdges(known, s, es[..|es| - 1]), es[|es| - 1])
  }

  function VisitAll(edges: Edges, known: set<string>, s: Level, frontier: seq<string>): Level {
    if frontier == [] then s
    else VisitEdges(known, VisitAll(edges, known, s, frontier[..|frontier| - 1]), Out(edges, frontier[|frontier| - 1]))
  }

  function NextLevel(edges: Edges, known: set<string>, seen: set<string>, frontier: seq<string>): Level {
    VisitAll(edges, known, Level(seen, []), frontier)
  }

  // Level after level, for the hops left.
  function FullOrder(edges: Edges, known: set<string>, seen: set<string>, frontier: seq<string>, hops: nat): seq<string>
    decreases hops
  {
    if hops == 0 then []
    else
      var l := NextLevel(edges, known, seen, frontier);
      l.found + FullOrder(edges, known, l.seen, l.found, hops - 1)
  }

  function SetOf(ids: seq<string>): set<string> {
    set id | id in ids
  }

  function Clamp(hops: int): nat {
    if hops < 1 then 1 else if hops > 3 then 3 else hops
  }

  // Everything breadth-first search finds from the seeds, in order.
  function Reached(edges: Edges, known: set<string>, seeds: seq<string>, hops: int): seq<string> {
    FullOrder(edges, known, SetOf(seeds), seeds, Clamp(hops))
  }

  function FirstFive(ids: seq<string>): seq<string> {
    if |ids| > MAX_GRAPH_EXPAND then ids[..MAX_GRAPH_EXPAND] else ids
  }

  // ---------- the bounded search ----------

  lemma {:induction false} EdgesGrow(known: set<string>, s: Level, es: seq<Edge>, i: nat)
    requires i <= |es|
    ensures VisitEdges(known, s, es[..i]).found <= VisitEdges(known, s, es).found
    decreases |es|
  {
    if i < |es| {
      EdgesGrow(known, s, es[..|es| - 1], i);
      assert es[..|es| - 1][..i] == es[..i];
    } else {
      assert es[..i] == es;
    }
  }

  lemma {:induction false} EdgesStart(known: set<string>, s: Level, es: seq<Edge>)
    ensures s.found <= VisitEdges(known, s, es).found
  {
    EdgesGrow(known, s, es, 0);
    assert es[..0] == [];
  }

  lemma {:induction false} AllGrow(edges: Edges, known: set<string>, s: Level, frontier: seq<string>, i: nat)
    requires i <= |frontier|
    ensures VisitAll(edges, known, s, frontier[..i]).found <= VisitAll(edges, known, s, frontier).found
    decreases |frontier|
  {
    if i < |frontier| {
      var n := |frontier| - 1;
      AllGrow(edges, known, s, frontier[..n], i);
      assert frontier[..n][..i] == frontier[..i];
      EdgesStart(known, VisitAll(edges, known, s, frontier[..n]), Out(edges, frontier[n]));
    } else {
      assert frontier[..i] == frontier;
    }
  }

  function ChunksOf(chunks: map<string, Chunk>, ids: seq<string>): (r: seq<Chunk>)
    requires forall i :: 0 <= i < |ids| ==> ids[i] in chunks
    ensures |r| == |ids|
  {
    if ids == [] then [] else ChunksOf(chunks, ids[..|ids| - 1]) + [chunks[ids[|ids| - 1]]]
  }

  lemma {:induction false} NoneFrom(edges: Edges, known: set<string>, seen: set<string>, hops: nat)
    ensures FullOrder(edges, known, seen, [], hops) == []
  {
    if hops > 0 {
      NoneFrom(edges, known, seen, hops - 1);
    }
  }

  ghost predicate Known(chunks: map<string, Chunk>, ids: seq<string>) {
    forall i :: 0 <= i < |ids| ==> ids[i] in chunks
  }

  // The chunks put out are those of the levels before and of this one so far.
  ghost predicate OutIs(chunks: map<string, Chunk>, ids: seq<string>, next: seq<string>, out: seq<Chunk>) {
    Known(chunks, ids + next) && out == ChunksOf(chunks, ids + next)
  }

  lemma OutMore(chunks: map<string, Chunk>, ids: seq<string>, next: seq<string>, out: seq<Chunk>, id: string)
    requires OutIs(chunks, ids, next, out) && id in chunks
    ensures OutIs(chunks, ids, next + [id], out + [chunks[id]])
  {
    var all := ids + (next + [id]);
    assert all == (ids + next) + [id];
    assert all[..|all| - 1] == ids + next;
  }

  lemma NextBegins(chunks: map<string, Chunk>, ids: seq<string>, next: seq<string>, out: seq<Chunk>)
    requires OutIs(chunks, ids, next, out)
    ensures OutIs(chunks, ids + next, [], out)
  {
    assert ids + next + [] == ids + next;
  }

  // The edges of one node, until five are out.
  method ScanEdges(chunks: map<string, Chunk>, es: seq<Edge>, seen: set<string>, out: seq<Chunk>,
                   ghost ids: seq<string>, next: seq<string>)
    returns (full: bool, out': seq<Chunk>, seen': set<string>, next': seq<string>)
    requires OutIs(chunks, ids, next, out) && |ids + next| < MAX_GRAPH_EXPAND
    ensures OutIs(chunks, ids, next', out')
    ensures !full ==>
              Level(seen', next') == VisitEdges(chunks.Keys, Level(seen, next), es) && |ids + next'| < MAX_GRAPH_EXPAND
    ensures full ==> next' <= VisitEdges(chunks.Keys, Level(seen, next), es).found && |ids + next'| == MAX_GRAPH_EXPAND
  {
    out', seen', next' := out, seen, next;
    ghost var here := Level(seen, next);
    for j := 0 to |es|
      invariant VisitEdges(chunks.Keys, here, es[..j]) == Level(seen', next')
      invariant OutIs(chunks, ids, next', out') && |ids + next'| < MAX_GRAPH_EXPAND
    {
      VisitOneMore(chunks.Keys, here, es, j);
      var e := es[j];
      if e.to !in seen' {
        seen' := seen' + {e.to};
        if e.to in chunks {
          OutMore(chunks, ids, next', out', e.to);
          out' := out' + [chunks[e.to]];
          next' := next' + [e.to];
          if |out'| >= MAX_GRAPH_EXPAND {
            EdgesGrow(chunks.Keys, here, es, j + 1);
            return true, out', seen', next';
          }
        }
      }
    }
    assert es[..|es|] == es;
    full := false;
  }

  lemma VisitOneMore(known: set<string>, s: Level, es: seq<Edge>, j: nat)
    requires j < |es|
    ensures VisitEdges(known, s, es[..j + 1]) == VisitEdge(known, VisitEdges(known, s, es[..j]), es[j])
  {
    assert es[..j + 1][..j] == es[..j];
  }

  lemma VisitNodeMore(edges: Edges, known: set<string>, s: Level, frontier: seq<string>, i: nat)
    requires i < |frontier|
    ensures VisitAll(edges, known, s, frontier[..i + 1]) ==
            VisitEdges(known, VisitAll(edges, known, s, frontier[..i]), Out(edges, frontier[i]))
  {
    assert frontier[..i + 1][..i] == frontier[..i];
  }

  // One level, until five are out.
  method ExpandLevel(edges: Edges, chunks: map<string, Chunk>, frontier: seq<string>, seen: set<string>,
                     before: seq<Chunk>, ghost ids: seq<string>)
    returns (full: bool, out: seq<Chunk>, seen': set<string>, next: seq<string>)
    requires |ids| < MAX_GRAPH_EXPAND && OutIs(chunks, ids, [], before)
    ensures OutIs(chunks, ids, next, out)
    ensures !full ==>
              Level(seen', next) == NextLevel(edges, chunks.Keys, seen, frontier) && |ids + next| < MAX_GRAPH_EXPAND
    ensures full ==> next <= NextLevel(edges, chunks.Keys, seen, frontier).found && |ids + next| == MAX_GRAPH_EXPAND
  {
    out, seen', next := before, seen, [];
    ghost var start := Level(seen, []);
    for i := 0 to |frontier|
      invariant VisitAll(edges, chunks.Keys, start, frontier[..i]) == Level(seen', next)
      invariant OutIs(chunks, ids, next, out) && |ids + next| < MAX_GRAPH_EXPAND
    {
      VisitNodeMore(edges, chunks.Keys, start, frontier, i);
      full, out, seen', next := ScanEdges(chunks, Out(edges, frontier[i]), seen', out, ids, next);
      if full {
        AllGrow(edges, chunks.Keys, start, frontier, i + 1);
        return;
      }
    }
    assert frontier[..|frontier|] == frontier;
    full := false;
  }

  // The search after some whole levels: what it has seen, where it stands, what it found.
  datatype Progress = Progress(seen: set<string>, frontier: seq<string>, ids: seq<string>)

  function After(edges: Edges, known: set<string>, seeds: seq<string>, levels: nat): Progress {
    if levels == 0 then Progress(SetOf(seeds), seeds, [])
    else
      var p := After(edges, known, seeds, levels - 1);
      var l := NextLevel(edges, known, p.seen, p.frontier);
      Progress(l.seen, l.found, p.ids + l.found)
  }

  lemma AfterMore(edges: Edges, known: set<string>, seeds: seq<string>, levels: nat)
    ensures var p := After(edges, known, seeds, levels);
            var l := NextLevel(edges, known, p.seen, p.frontier);
            After(edges, known, seeds, levels + 1) == Progress(l.seen, l.found, p.ids + l.found)
  {
  }

  // What is found after some levels, and then level after level, is the full order.
  lemma {:induction false} AfterThenRest(edges: Edges, known: set<string>, seeds: seq<string>, levels: nat, hops: nat)
    requires levels <= hops
    ensures var p := After(edges, known, seeds, levels);
            FullOrder(edges, known, SetOf(seeds), seeds, hops) ==
              p.ids + FullOrder(edges, known, p.seen, p.frontier, hops - levels)
  {
    var p := After(edges, known, seeds, levels);
    if levels == 0 {
      assert [] + FullOrder(edges, known, p.seen, p.frontier, hops) ==
             FullOrder(edges, known, p.seen, p.frontier, hops);
    } else {
      AfterThenRest(edges, known, seeds, levels - 1, hops);
      var q := After(edges, known, seeds, levels - 1);
      var l := NextLevel(edges, known, q.seen, q.frontier);
    }
  }

  // The level that fills the five ends the search.
  lemma FullAfter(edges: Edges, known: set<string>, seeds: seq<string>, levels: nat, hops: nat, next: seq<string>)
    requires levels < hops
    requires var p := After(edges, known, seeds, levels);
             next <= NextLevel(edges, known, p.seen, p.frontier).found && |p.ids + next| == MAX_GRAPH_EXPAND
    ensures FirstFive(FullOrder(edges, known, SetOf(seeds), seeds, hops)) ==
            After(edges, known, seeds, levels).ids + next
  {
    var p := After(edges, known, seeds, levels);
    var l := NextLevel(edges, known, p.seen, p.frontier);
    AfterThenRest(edges, known, seeds, levels, hops);
  }

  // So does the last level, or an empty one.
  lemma DoneAfter(edges: Edges, known: set<string>, seeds: seq<string>, levels: nat, hops: nat)
    requires levels <= hops && |After(edges, known, seeds, levels).ids| < MAX_GRAPH_EXPAND
    requires levels == hops || After(edges, known, seeds, levels).frontier == []
    ensures FirstFive(FullOrder(edges, known, SetOf(seeds), seeds, hops)) == After(edges, known, seeds, levels).ids
  {
    var p := After(edges, known, seeds, levels);
    AfterThenRest(edges, known, seeds, levels, hops);
    if levels < hops {
      NoneFrom(edges, known, p.seen, hops - levels);
    }
    assert p.ids + [] == p.ids;
  }

  // The levels one by one, until five are out.
  method ExpandLevels(edges: Edges, chunks: map<string, Chunk>, seeds: seq<string>, hops: nat)
    returns (full: bool, out: seq<Chunk>, ghost levels: nat, ghost p: Progress, ghost next: seq<string>)
    ensures levels <= hops && p == After(edges, chunks.Keys, seeds, levels) && OutIs(chunks, p.ids, next, out)
    ensures full ==>
              && levels < hops && next <= NextLevel(edges, chunks.Keys, p.seen, p.frontier).found
              && |p.ids + next| == MAX_GRAPH_EXPAND
    ensures !full ==> next == [] && |p.ids| < MAX_GRAPH_EXPAND && (levels == hops || p.frontier == [])
  {
    var seen, frontier := SetOf(seeds), seeds;
    out, levels, full, next := [], 0, false, [];
    p := Progress(seen, frontier, []);
    NextBegins(chunks, [], [], []);
    var h := 0;
    while h < hops && |out| < MAX_GRAPH_EXPAND
      invariant h == levels <= hops && |p.ids| < MAX_GRAPH_EXPAND && OutIs(chunks, p.ids, [], out)
      invariant p == After(edges, chunks.Keys, seeds, levels) && p.seen == seen && p.frontier == frontier
    {
      var found;
      full, out, seen, found := ExpandLevel(edges, chunks, frontier, seen, out, p.ids);
      if full {
        next := found;
        return;
      }
      AfterMore(edges, chunks.Keys, seeds, levels);
      NextBegins(chunks, p.ids, found, out);
      p, frontier := Progress(seen, found, p.ids + found), found;
      h, levels := h + 1, levels + 1;
      if |found| == 0 {
        return;
      }
    }
  }

  // The first five of the full order.
  method Expand(edges: Edges, chunks: map<string, Chunk>, seeds: seq<string>, hops: int) returns (out: seq<Chunk>)
    ensures var ids := Reached(edges, chunks.Keys, seeds, hops);
            && |out| == (if |ids| > 5 then 5 else |ids|)
            && forall i :: 0 <= i < |out| ==> ids[i] in chunks && out[i] == chunks[ids[i]]
  {
    var full;
    ghost var levels, p, next;
    full, out, levels, p, next := ExpandLevels(edges, chunks, seeds, Clamp(hops));
    ghost var ids := p.ids + next;
    if full {
      FullAfter(edges, chunks.Keys, seeds, levels, Clamp(hops), next);
    } else {
      assert ids == p.ids;
      DoneAfter(edges, chunks.Keys, seeds, levels, Clamp(hops));
    }
    ChunksAre(chunks, FirstFive(Reached(edges, chunks.Keys, seeds, hops)));
  }

  lemma {:induction false} ChunksAre(chunks: map<string, Chunk>, ids: seq<string>)
    requires Known(chunks, ids)
    ensures forall i :: 0 <= i < |ids| ==> ChunksOf(chunks, ids)[i] == chunks[ids[i]]
  {
    if ids != [] {
      ChunksAre(chunks, ids[..|ids| - 1]);
    }
  }

  // ---------- the full order is every node by distance ----------

  function Neighbours(edges: Edges, ids: set<string>): set<string> {
    set a, i | a in ids && 0 <= i < |Out(edges, a)| :: Out(edges, a)[i].to
  }

  // The nodes at most d edges from the seeds.
  function Within(edges: Edges, seeds: set<string>, d: nat): set<string> {
    if d == 0 then seeds else Within(edges, seeds, d - 1) + Neighbours(edges, Within(edges, seeds, d - 1))
  }

  function Targets(es: seq<Edge>): set<string> {
    set i | 0 <= i < |es| :: es[i].to
  }

  ghost predicate Distinct(ids: seq<string>) {
    forall i, j :: 0 <= i < j < |ids| ==> ids[i] != ids[j]
  }

  // After looking at the nodes x: all are seen, and those not seen before are found.
  ghost predicate Looked(seen: set<string>, l: Level, x: set<string>) {
    l.seen == seen + x && SetOf(l.found) == x - seen && Distinct(l.found)
  }

  lemma LookAtEdge(known: set<string>, seen: set<string>, l: Level, x: set<string>, e: Edge)
    requires Looked(seen, l, x) && e.to in known
    ensures Looked(seen, VisitEdge(known, l, e), x + {e.to})
  {
    if e.to in l.seen {
      assert x + {e.to} - seen == x - seen;
    } else {
      assert e.to !in SetOf(l.found);
      assert SetOf(l.found + [e.to]) == SetOf(l.found) + {e.to};
    }
  }

  lemma {:induction false} LookAtEdges(known: set<string>, seen: set<string>, l: Level, x: set<string>, es: seq<Edge>)
    requires Looked(seen, l, x) && Targets(es) <= known
    ensures Looked(seen, VisitEdges(known, l, es), x + Targets(es))
  {
    if es == [] {
      assert x + Targets(es) == x;
    } else {
      var n := |es| - 1;
      assert Targets(es) == Targets(es[..n]) + {es[n].to};
      LookAtEdges(known, seen, l, x, es[..n]);
      LookAtEdge(known, seen, VisitEdges(known, l, es[..n]), x + Targets(es[..n]), es[n]);
      assert x + Targets(es[..n]) + {es[n].to} == x + Targets(es);
    }
  }

  lemma LookedOne(edges: Edges, known: set<string>, seen: set<string>, l: Level, ids: seq<string>, id: string)
    requires Sound(edges, known) && Looked(seen, l, Neighbours(edges, SetOf(ids)))
    ensures Looked(seen, VisitEdges(known, l, Out(edges, id)), Neighbours(edges, SetOf(ids + [id])))
  {
    LookAtEdges(known, seen, l, Neighbours(edges, SetOf(ids)), Out(edges, id));
    NeighboursMore(edges, ids, id);
  }

  lemma {:induction false} LookAtAll(edges: Edges, known: set<string>, seen: set<string>, frontier: seq<string>)
    requires Sound(edges, known)
    ensures Looked(seen, NextLevel(edges, known, seen, frontier), Neighbours(edges, SetOf(frontier)))
    decreases |frontier|
  {
    if frontier == [] {
    } else {
      var ids, id := frontier[..|frontier| - 1], frontier[|frontier| - 1];
      LookAtAll(edges, known, seen, ids);
      LookedOne(edges, known, seen, NextLevel(edges, known, seen, ids), ids, id);
      assert ids + [id] == frontier;
    }
  }

  lemma NeighboursMore(edges: Edges, ids: seq<string>, id: string)
    ensures Neighbours(edges, SetOf(ids + [id])) == Neighbours(edges, SetOf(ids)) + Targets(Out(edges, id))
  {
    assert SetOf(ids + [id]) == SetOf(ids) + {id};
    assert Neighbours(edges, {id}) == Targets(Out(edges, id));
  }

  lemma {:induction false} WithinGrows(edges: Edges, seeds: set<string>, d: nat, e: nat)
    requires d <= e
    ensures Within(edges, seeds, d) <= Within(edges, seeds, e)
    decreases e
  {
    if d < e {
      WithinGrows(edges, seeds, d, e - 1);
    }
  }

  // The search stands at distance d: everything within is seen, and what is not in the
  // frontier has been left behind.
  ghost predicate Standing(edges: Edges, seeds: set<string>, d: nat, seen: set<string>, frontier: seq<string>) {
    && seen == Within(edges, seeds, d) && SetOf(frontier) <= seen
    && Neighbours(edges, seen - SetOf(frontier)) <= seen
  }

  lemma Step(edges: Edges, known: set<string>, seeds: set<string>, d: nat, seen: set<string>, frontier: seq<string>)
    requires Sound(edges, known) && Standing(edges, seeds, d, seen, frontier)
    ensures var l := NextLevel(edges, known, seen, frontier);
            && Standing(edges, seeds, d + 1, l.seen, l.found) && Distinct(l.found)
            && SetOf(l.found) == Within(edges, seeds, d + 1) - Within(edges, seeds, d)
  {
    LookAtAll(edges, known, seen, frontier);
    var l := NextLevel(edges, known, seen, frontier);
    var f := SetOf(frontier);
    assert seen == (seen - f) + f;
    assert l.seen == Within(edges, seeds, d + 1);
    assert l.seen - SetOf(l.found) == seen;
  }

  // ids is every node further than d and at most e, each once, the nearer first.
  ghost predicate ByDistance(edges: Edges, seeds: set<string>, d: nat, e: nat, ids: seq<string>) {
    && SetOf(ids) == Within(edges, seeds, e) - Within(edges, seeds, d)
    && Distinct(ids) && NearerFirst(edges, seeds, ids)
  }

  ghost predicate NearerFirst(edges: Edges, seeds: set<string>, ids: seq<string>) {
    forall i, j, k: nat :: 0 <= i < j < |ids| && ids[j] in Within(edges, seeds, k) ==> ids[i] in Within(edges, seeds, k)
  }

  lemma OneLevelFirst(edges: Edges, seeds: set<string>, d: nat, ids: seq<string>)
    requires SetOf(ids) == Within(edges, seeds, d + 1) - Within(edges, seeds, d)
    ensures NearerFirst(edges, seeds, ids)
  {
    forall i, j, k: nat | 0 <= i < j < |ids| && ids[j] in Within(edges, seeds, k)
      ensures ids[i] in Within(edges, seeds, k)
    {
      assert ids[i] in SetOf(ids) && ids[j] in SetOf(ids);
      if k <= d {
        WithinGrows(edges, seeds, k, d);
      } else {
        WithinGrows(edges, seeds, d + 1, k);
      }
    }
  }

  lemma JoinDistinct(a: seq<string>, b: seq<string>)
    requires Distinct(a) && Distinct(b) && SetOf(a) !! SetOf(b)
    ensures Distinct(a + b) && SetOf(a + b) == SetOf(a) + SetOf(b)
  {
    forall i, j | 0 <= i < |a| && 0 <= j < |b|
      ensures a[i] != b[j]
    {
      assert a[i] in SetOf(a) && b[j] in SetOf(b);
    }
    assert SetOf(a + b) == SetOf(a) + SetOf(b);
  }

  // A node at distance at most m comes before one that is further.
  lemma Nearer(edges: Edges, seeds: set<string>, m: nat, x: string, y: string, k: nat)
    requires x in Within(edges, seeds, m) && y !in Within(edges, seeds, m) && y in Within(edges, seeds, k)
    ensures x in Within(edges, seeds, k)
  {
    if k <= m {
      WithinGrows(edges, seeds, k, m);
    } else {
      WithinGrows(edges, seeds, m, k);
    }
  }

  lemma JoinNearer(edges: Edges, seeds: set<string>, m: nat, a: seq<string>, b: seq<string>)
    requires NearerFirst(edges, seeds, a) && NearerFirst(edges, seeds, b)
    requires SetOf(a) <= Within(edges, seeds, m) && SetOf(b) !! Within(edges, seeds, m)
    ensures NearerFirst(edges, seeds, a + b)
  {
    var ids := a + b;
    forall i, j, k: nat | 0 <= i < j < |ids| && ids[j] in Within(edges, seeds, k)
      ensures ids[i] in Within(edges, seeds, k)
    {
      if j < |a| {
        assert a[j] in Within(edges, seeds, k);
      } else if i >= |a| {
        assert b[j - |a|] in Within(edges, seeds, k);
      } else {
        assert a[i] in SetOf(a) && b[j - |a|] in SetOf(b);
        Nearer(edges, seeds, m, a[i], b[j - |a|], k);
      }
    }
  }

  lemma JoinLevels(edges: Edges, seeds: set<string>, d: nat, e: nat, a: seq<string>, b: seq<string>)
    requires d < e && ByDistance(edges, seeds, d, d + 1, a) && ByDistance(edges, seeds, d + 1, e, b)
    ensures ByDistance(edges, seeds, d, e, a + b)
  {
    WithinGrows(edges, seeds, d, d + 1);
    WithinGrows(edges, seeds, d + 1, e);
    JoinDistinct(a, b);
    JoinNearer(edges, seeds, d + 1, a, b);
    assert SetOf(a) + SetOf(b) == Within(edges, seeds, e) - Within(edges, seeds, d);
  }

  lemma {:induction false} OrderIsByDistance(edges: Edges, known: set<string>, seeds: set<string>, d: nat,
                                             seen: set<string>, frontier: seq<string>, hops: nat)
    requires Sound(edges, known) && Standing(edges, seeds, d, seen, frontier)
    ensures ByDistance(edges, seeds, d, d + hops, FullOrder(edges, known, seen, frontier, hops))
    decreases hops
  {
    if hops == 0 {
      assert Within(edges, seeds, d) - Within(edges, seeds, d) == {};
    } else {
      Step(edges, known, seeds, d, seen, frontier);
      var l := NextLevel(edges, known, seen, frontier);
      OneLevelFirst(edges, seeds, d, l.found);
      OrderIsByDistance(edges, known, seeds, d + 1, l.seen, l.found, hops - 1);
      JoinLevels(edges, seeds, d, d + hops, l.found, FullOrder(edges, known, l.seen, l.found, hops - 1));
    }
  }

  // The full order is every node 1 to hops edges from a seed, each once, nearer first.
  lemma ReachedByDistance(edges: Edges, known: set<string>, seeds: seq<string>, hops: int)
    requires Sound(edges, known)
    ensures ByDistance(edges, SetOf(seeds), 0, if hops < 1 then 1 else if hops > 3 then 3 else hops,
                       Reached(edges, known, seeds, hops))
  {
    assert SetOf(seeds) - SetOf(seeds) == {};
    assert Neighbours(edges, {}) == {};
    OrderIsByDistance(edges, known, SetOf(seeds), 0, SetOf(seeds), seeds, Clamp(hops));
  }

  // Fewer than five: everything within the hops has come back.
  lemma FewMeansAll(edges: Edges, known: set<string>, seeds: seq<string>, hops: int)
    requires Sound(edges, known) && |FirstFive(Reached(edges, known, seeds, hops))| < 5
    ensures SetOf(FirstFive(Reached(edges, known, seeds, hops))) ==
            Within(edges, SetOf(seeds), if hops < 1 then 1 else if hops > 3 then 3 else hops) - SetOf(seeds)
  {
    ReachedByDistance(edges, known, seeds, hops);
  }

  // ---------- the order within a level ----------

  // The ends of the edges of a frontier, node by node.
  function EndsOf(es: seq<Edge>): (r: seq<string>)
    ensures |r| == |es| && forall i :: 0 <= i < |es| ==> r[i] == es[i].to
  {
    seq(|es|, i requires 0 <= i < |es| => es[i].to)
  }

  function Met(edges: Edges, frontier: seq<string>): seq<string> {
    if frontier == [] then []
    else Met(edges, frontier[..|frontier| - 1]) + EndsOf(Out(edges, frontier[|frontier| - 1]))
  }

  // Position k is where a known node that was not seen is met first.
  predicate MetAt(known: set<string>, seen: set<string>, targets: seq<string>, k: nat)
    requires k < |targets|
  {
    targets[k] in known && targets[k] !in seen && forall l :: 0 <= l < k ==> targets[l] != targets[k]
  }

  // The nodes found stand in the order in which they are met.
  ghost predicate FoundAt(known: set<string>, seen: set<string>, targets: seq<string>, at: seq<nat>,
                          found: seq<string>)
  {
    && |found| == |at|
    && (forall k :: 0 <= k < |at| ==>
          at[k] < |targets| && found[k] == targets[at[k]] && MetAt(known, seen, targets, at[k]))
    && (forall k, l :: 0 <= k < l < |at| ==> at[k] < at[l])
    && forall k :: 0 <= k < |targets| && MetAt(known, seen, targets, k) ==> k in at
  }

  lemma FoundMore(known: set<string>, seen: set<string>, targets: seq<string>, at: seq<nat>, found: seq<string>,
                  to: string)
    requires FoundAt(known, seen, targets, at, found)
    ensures var more := targets + [to];
            if to in known && to !in seen && to !in targets
              then FoundAt(known, seen, more, at + [|targets|], found + [to])
              else FoundAt(known, seen, more, at, found)
  {
    var more := targets + [to];
    forall k | 0 <= k < |targets|
      ensures MetAt(known, seen, more, k) <==> MetAt(known, seen, targets, k)
    {
      assert more[k] == targets[k] && forall l :: 0 <= l < k ==> more[l] == targets[l];
    }
    assert MetAt(known, seen, more, |targets|) <==> to in known && to !in seen && to !in targets by {
      assert more[|targets|] == to && forall l :: 0 <= l < |targets| ==> more[l] == targets[l];
    }
    if to in known && to !in seen && to !in targets {
      var next := at + [|targets|];
      forall k | 0 <= k < |more| && MetAt(known, seen, more, k)
        ensures k in next
      {
        if k == |targets| {
          assert next[|at|] == k;
        } else {
          assert k in at;
        }
      }
    }
  }

  lemma {:induction false} EdgesFound(known: set<string>, seen: set<string>, targets: seq<string>, at: seq<nat>,
                                      s: Level, es: seq<Edge>)
    returns (at': seq<nat>)
    requires FoundAt(known, seen, targets, at, s.found) && s.seen == seen + SetOf(targets)
    ensures FoundAt(known, seen, targets + EndsOf(es), at', VisitEdges(known, s, es).found)
    ensures VisitEdges(known, s, es).seen == seen + SetOf(targets + EndsOf(es))
  {
    at' := at;
    if es == [] {
      assert targets + EndsOf(es) == targets;
    } else {
      var n := |es| - 1;
      var before := targets + EndsOf(es[..n]);
      at' := EdgesFound(known, seen, targets, at, s, es[..n]);
      FoundMore(known, seen, before, at', VisitEdges(known, s, es[..n]).found, es[n].to);
      assert targets + EndsOf(es) == before + [es[n].to];
      assert SetOf(before + [es[n].to]) == SetOf(before) + {es[n].to};
      if es[n].to in known && es[n].to !in seen && es[n].to !in before {
        at' := at' + [|before|];
      }
    }
  }

  lemma {:induction false} LevelFound(edges: Edges, known: set<string>, seen: set<string>, frontier: seq<string>)
    returns (at: seq<nat>)
    ensures FoundAt(known, seen, Met(edges, frontier), at, NextLevel(edges, known, seen, frontier).found)
    ensures NextLevel(edges, known, seen, frontier).seen == seen + SetOf(Met(edges, frontier))
  {
    at := [];
    if frontier != [] {
      var n := |frontier| - 1;
      at := LevelFound(edges, known, seen, frontier[..n]);
      at := EdgesFound(known, seen, Met(edges, frontier[..n]), at,
                       VisitAll(edges, known, Level(seen, []), frontier[..n]), Out(edges, frontier[n]));
    }
  }
}
