/** The structural graph over chunks (internal/rag/graph.go: BuildGraph, addEdge,
    addHeadingTopicEdges; internal/rag/entities.go: addEntityEdges). Trimming and the
    extraction of entities and heading tokens are functions the caller supplies. */
module Graph {
  datatype Kind = Adjacent | Sibling | Entity | Topic

  datatype Edge = Edge(to: string, kind: Kind)

  type Edges = map<string, seq<Edge>>

  function Out(edges: Edges, id: string): seq<Edge> {
    if id in edges then edges[id] else []
  }

  predicate Linked(edges: Edges, a: string, b: string) {
    exists i :: 0 <= i < |Out(edges, a)| && Out(edges, a)[i].to == b
  }

  predicate HasEdge(edges: Edges, a: string, b: string, kind: Kind) {
    exists i :: 0 <= i < |Out(edges, a)| && Out(edges, a)[i] == Edge(b, kind)
  }

  // ---------- what every graph keeps ----------

  // No loop, no two edges to one neighbour, only known chunks.
  ghost predicate NodeSound(id: string, es: seq<Edge>, known: set<string>) {
    && (forall i :: 0 <= i < |es| ==> es[i].to in known && es[i].to != id && id in known)
    && forall i, j :: 0 <= i < j < |es| ==> es[i].to != es[j].to
  }

  ghost predicate Symmetric(edges: Edges) {
    forall a, b, k :: HasEdge(edges, a, b, k) ==> HasEdge(edges, b, a, k)
  }

  ghost predicate Sound(edges: Edges, known: set<string>) {
    (forall id :: NodeSound(id, Out(edges, id), known)) && Symmetric(edges)
  }

  // addEdge as a function.
  function Added(edges: Edges, from: string, to: string, kind: Kind): Edges {
    if from == to || Linked(edges, from, to) then edges else edges[from := Out(edges, from) + [Edge(to, kind)]]
  }

  // An edge and its mirror.
  function Paired(edges: Edges, a: string, b: string, kind: Kind): Edges {
    Added(Added(edges, a, b, kind), b, a, kind)
  }

  lemma OneSound(id: string, es: seq<Edge>, known: set<string>, e: Edge)
    requires NodeSound(id, es, known) && id in known && e.to in known && e.to != id
    requires forall i :: 0 <= i < |es| ==> es[i].to != e.to
    ensures NodeSound(id, es + [e], known)
  {
  }

  lemma LinkedKind(edges: Edges, a: string, b: string) returns (k: Kind)
    requires Linked(edges, a, b)
    ensures HasEdge(edges, a, b, k)
  {
    var i :| 0 <= i < |Out(edges, a)| && Out(edges, a)[i].to == b;
    k := Out(edges, a)[i].kind;
    assert Out(edges, a)[i] == Edge(b, k);
  }

  lemma KindLinked(edges: Edges, a: string, b: string, k: Kind)
    requires HasEdge(edges, a, b, k)
    ensures Linked(edges, a, b)
  {
    var i :| 0 <= i < |Out(edges, a)| && Out(edges, a)[i] == Edge(b, k);
    assert Out(edges, a)[i].to == b;
  }

  // What adding one edge changes.
  lemma AddedEdges(edges: Edges, from: string, to: string, kind: Kind, a: string, b: string, k: Kind)
    ensures HasEdge(Added(edges, from, to, kind), a, b, k) <==>
            HasEdge(edges, a, b, k) || (a == from && b == to && k == kind && from != to && !Linked(edges, from, to))
  {
    var more := Added(edges, from, to, kind);
    if more != edges && a == from {
      assert Out(more, a) == Out(edges, a) + [Edge(to, kind)];
      if HasEdge(edges, a, b, k) {
        var i :| 0 <= i < |Out(edges, a)| && Out(edges, a)[i] == Edge(b, k);
        assert Out(more, a)[i] == Edge(b, k);
      }
      assert Out(more, a)[|Out(edges, a)|] == Edge(to, kind);
      if HasEdge(more, a, b, k) {
        var i :| 0 <= i < |Out(more, a)| && Out(more, a)[i] == Edge(b, k);
        assert i < |Out(edges, a)| ==> Out(edges, a)[i] == Edge(b, k);
      }
    } else {
      assert Out(more, a) == Out(edges, a);
    }
  }

  lemma AddedNodes(edges: Edges, from: string, to: string, kind: Kind, known: set<string>)
    requires from in known && to in known && forall id :: NodeSound(id, Out(edges, id), known)
    ensures forall id :: NodeSound(id, Out(Added(edges, from, to, kind), id), known)
  {
    var more := Added(edges, from, to, kind);
    forall id
      ensures NodeSound(id, Out(more, id), known)
    {
      if more != edges && id == from {
        assert NodeSound(from, Out(edges, from), known);
        OneSound(from, Out(edges, from), known, Edge(to, kind));
      } else {
        assert NodeSound(id, Out(edges, id), known);
      }
    }
  }

  // In a symmetric graph a is linked to b exactly if b is linked to a.
  lemma LinkedBack(edges: Edges, a: string, b: string)
    requires Symmetric(edges)
    ensures Linked(edges, a, b) <==> Linked(edges, b, a)
  {
    if Linked(edges, a, b) {
      var k := LinkedKind(edges, a, b);
      KindLinked(edges, b, a, k);
    }
    if Linked(edges, b, a) {
      var k := LinkedKind(edges, b, a);
      KindLinked(edges, a, b, k);
    }
  }

  lemma OtherUnlinked(edges: Edges, a: string, b: string, kind: Kind)
    requires a != b
    ensures Linked(Added(edges, a, b, kind), b, a) <==> Linked(edges, b, a)
  {
    assert Out(Added(edges, a, b, kind), b) == Out(edges, b);
  }

  lemma PairedEdges(edges: Edges, a: string, b: string, kind: Kind, x: string, y: string, k: Kind)
    requires Symmetric(edges)
    ensures HasEdge(Paired(edges, a, b, kind), x, y, k) <==>
            HasEdge(edges, x, y, k) ||
            (a != b && !Linked(edges, a, b) && k == kind && ((x == a && y == b) || (x == b && y == a)))
  {
    AddedEdges(edges, a, b, kind, x, y, k);
    AddedEdges(Added(edges, a, b, kind), b, a, kind, x, y, k);
    LinkedBack(edges, a, b);
    if a != b {
      OtherUnlinked(edges, a, b, kind);
    }
  }

  // An edge and its mirror keep the graph sound.
  lemma PairedSound(edges: Edges, a: string, b: string, kind: Kind, known: set<string>)
    requires Sound(edges, known) && a in known && b in known
    ensures Sound(Paired(edges, a, b, kind), known)
  {
    AddedNodes(edges, a, b, kind, known);
    AddedNodes(Added(edges, a, b, kind), b, a, kind, known);
    var more := Paired(edges, a, b, kind);
    forall x, y, k | HasEdge(more, x, y, k)
      ensures HasEdge(more, y, x, k)
    {
      PairedEdges(edges, a, b, kind, x, y, k);
      PairedEdges(edges, a, b, kind, y, x, k);
    }
  }

  // Edges are only ever added.
  ghost predicate Grew(before: Edges, after: Edges) {
    forall a, b, k :: HasEdge(before, a, b, k) ==> HasEdge(after, a, b, k)
  }

  lemma PairedGrew(edges: Edges, a: string, b: string, kind: Kind)
    requires Symmetric(edges)
    ensures Grew(edges, Paired(edges, a, b, kind))
    ensures a != b ==> Linked(Paired(edges, a, b, kind), a, b)
  {
    var more := Paired(edges, a, b, kind);
    forall x, y, k | HasEdge(edges, x, y, k)
      ensures HasEdge(more, x, y, k)
    {
      PairedEdges(edges, a, b, kind, x, y, k);
    }
    if a != b {
      if Linked(edges, a, b) {
        var k := LinkedKind(edges, a, b);
        KindLinked(more, a, b, k);
      } else {
        PairedEdges(edges, a, b, kind, a, b, kind);
        KindLinked(more, a, b, kind);
      }
    }
  }

  lemma LinkedGrew(before: Edges, after: Edges, a: string, b: string)
    requires Grew(before, after) && Linked(before, a, b)
    ensures Linked(after, a, b)
  {
    var k := LinkedKind(before, a, b);
    KindLinked(after, a, b, k);
  }

  lemma SoundInMore(edges: Edges, known: set<string>, more: set<string>)
    requires Sound(edges, known) && known <= more
    ensures Sound(edges, more)
  {
    forall id
      ensures NodeSound(id, Out(edges, id), more)
    {
      var es := Out(edges, id);
      assert NodeSound(id, es, known);
      assert forall i :: 0 <= i < |es| ==> es[i].to in known && es[i].to != id && id in known;
    }
  }
}
