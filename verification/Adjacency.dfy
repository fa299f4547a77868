/** Whether the neighbours the graph links are the neighbours of the document: chunks
    are numbered within their section (internal/rag/chunker.go) and linked in the order
    of these numbers (internal/rag/graph.go). */
module Adjacency {
  import opened Prelude
  import opened Sorting
  import Chunker
  import Graph
  import GraphBuild
  import Search

  // An order in which the graph may take the chunks of one source.
  ghost predicate Taken(cs: seq<Search.Chunk>, document: seq<Search.Chunk>) {
    Sorted(cs, GraphBuild.ByOrdinal) && multiset(cs) == multiset(document)
  }

  ghost predicate Rising(document: seq<Search.Chunk>) {
    forall i, j :: 0 <= i < j < |document| ==> document[i].ordinal < document[j].ordinal
  }

  ghost predicate DistinctChunks(document: seq<Search.Chunk>) {
    forall i, j :: 0 <= i < j < |document| ==> document[i] != document[j]
  }

  lemma ByOrdinalIsOrder()
    ensures TotalPreorder(GraphBuild.ByOrdinal)
  {
  }

  // If every step rises, all does.
  lemma {:induction false} StepsRise(document: seq<Search.Chunk>)
    requires forall i :: 0 <= i < |document| - 1 ==> document[i].ordinal < document[i + 1].ordinal
    ensures Rising(document)
  {
    if document != [] {
      var n := |document| - 1;
      StepsRise(document[..n]);
      forall i | 0 <= i < n
        ensures document[i].ordinal < document[n].ordinal
      {
        assert document[..n][i].ordinal <= document[n - 1].ordinal by {
          assert i < n - 1 ==> document[..n][i].ordinal < document[..n][n - 1].ordinal;
        }
      }
    }
  }

  lemma RisingIsTaken(document: seq<Search.Chunk>, cs: seq<Search.Chunk>)
    requires Rising(document) && Taken(cs, document)
    ensures cs == document
  {
    forall x, y | x in document && y in document && Tie(x, y, GraphBuild.ByOrdinal)
      ensures x == y
    {
      var i :| 0 <= i < |document| && document[i] == x;
      var j :| 0 <= j < |document| && document[j] == y;
    }
    SortedWithoutTies(document, cs, GraphBuild.ByOrdinal);
  }

  // The order may differ from the document as soon as an ordinal does not rise.
  lemma OtherOrder(document: seq<Search.Chunk>, i: nat) returns (cs: seq<Search.Chunk>)
    requires DistinctChunks(document) && i + 1 < |document| && document[i].ordinal >= document[i + 1].ordinal
    ensures Taken(cs, document) && cs != document
  {
    ByOrdinalIsOrder();
    SortSorts(document, GraphBuild.ByOrdinal);
    cs := StableSort(document, GraphBuild.ByOrdinal);
    if cs == document {
      assert GraphBuild.ByOrdinal(document[i], document[i + 1]);
      cs := Swapped(document, i, i + 1);
      assert cs[i] != document[i];
      SwapTied(document, i, i + 1, GraphBuild.ByOrdinal);
    }
  }

  ghost predicate FollowsDocument(document: seq<Search.Chunk>) {
    forall cs :: Taken(cs, document) ==> cs == document
  }

  // The graph takes the chunks in the order of the document exactly if their ordinals rise.
  lemma FollowsIfRising(document: seq<Search.Chunk>)
    requires DistinctChunks(document)
    ensures FollowsDocument(document) <==> Rising(document)
  {
    if Rising(document) {
      forall cs | Taken(cs, document)
        ensures cs == document
      {
        RisingIsTaken(document, cs);
      }
    } else {
      if forall i :: 0 <= i < |document| - 1 ==> document[i].ordinal < document[i + 1].ordinal {
        StepsRise(document);
      } else {
        var i :| 0 <= i < |document| - 1 && document[i].ordinal >= document[i + 1].ordinal;
        var cs := OtherOrder(document, i);
      }
    }
  }

  // ---------- the chunks of a document ----------

  ghost predicate AllCut(cuts: seq<seq<string>>) {
    forall i :: 0 <= i < |cuts| ==> cuts[i] != []
  }

  // The first chunk of a document is the first of its section.
  lemma {:induction false} FirstNumber(source: string, sections: seq<Chunker.Section>, cuts: seq<seq<string>>)
    requires |cuts| == |sections| && AllCut(cuts) && sections != []
    ensures Chunker.Numbered(source, sections, cuts) != [] && Chunker.Numbered(source, sections, cuts)[0].ordinal == 0
    decreases |sections|
  {
    var n := |sections| - 1;
    if n > 0 {
      FirstNumber(source, sections[..n], cuts[..n]);
    } else {
      assert Chunker.Numbered(source, sections[..n], cuts[..n]) == [];
    }
  }

  // The numbers rise within a section and start again in the next.
  lemma NumbersRise(source: string, sections: seq<Chunker.Section>, cuts: seq<seq<string>>)
    requires |cuts| == |sections| && AllCut(cuts)
    ensures Rising(Chunker.Numbered(source, sections, cuts)) <==> |sections| <= 1
  {
    var n := |sections| - 1;
    if n >= 0 {
      var before, last := Chunker.Numbered(source, sections[..n], cuts[..n]),
          Chunker.ChunksOf(source, sections[n], cuts[n]);
      var all := before + last;
      if n == 0 {
        assert before == [] && all == last;
      } else {
        FirstNumber(source, sections[..n], cuts[..n]);
        assert all[0] == before[0] && all[|before|] == last[0];
      }
    }
  }

  // The stored chunks are as the splitter numbered them; overlap and ids come later.
  ghost predicate SameOrdinals(document: seq<Search.Chunk>, raw: seq<Search.Chunk>) {
    |document| == |raw| && forall i :: 0 <= i < |raw| ==> document[i].ordinal == raw[i].ordinal
  }

  // Linking neighbours by ordinal follows the document exactly if it has one section.
  lemma OneSectionFollows(source: string, sections: seq<Chunker.Section>, cuts: seq<seq<string>>,
                          document: seq<Search.Chunk>)
    requires |cuts| == |sections| && AllCut(cuts) && DistinctChunks(document)
    requires SameOrdinals(document, Chunker.Numbered(source, sections, cuts))
    ensures FollowsDocument(document) <==> |sections| <= 1
  {
    NumbersRise(source, sections, cuts);
    FollowsIfRising(document);
    var raw := Chunker.Numbered(source, sections, cuts);
    assert forall i :: 0 <= i < |document| ==> document[i].ordinal == raw[i].ordinal;
  }

  // Where a section of three or more pieces ends, the graph of the document has no
  // adjacent edge from its last piece to the next section's first.
  lemma SectionEndIsCutOff(c: Search.Collection, edges: Graph.Edges, trim: GraphBuild.Trim, entities: GraphBuild.Terms,
                           tokens: GraphBuild.Terms, i: nat)
    requires GraphBuild.KindsMean(edges, [Some(c)], trim, entities, tokens)
    requires forall x, y :: x in c.chunks && y in c.chunks && x.id == y.id ==> x == y
    requires i + 1 < |c.chunks| && c.chunks[i].ordinal >= 2 && c.chunks[i + 1].ordinal == 0
    requires exists z :: z in c.chunks && z.ordinal == 1 && z.source == c.chunks[i].source
    ensures !Graph.HasEdge(edges, c.chunks[i].id, c.chunks[i + 1].id, Graph.Adjacent)
  {
    var a, b := c.chunks[i].id, c.chunks[i + 1].id;
    assert GraphBuild.AreNeighbours(c.chunks, a, b) ==> false;
    assert GraphBuild.StructureMeans([Some(c)], trim, a, b, Graph.Adjacent) ==>
             GraphBuild.AreNeighbours(c.chunks, a, b);
    assert Graph.HasEdge(edges, a, b, Graph.Adjacent) ==>
             GraphBuild.EdgeMeans([Some(c)], trim, entities, tokens, a, b, Graph.Adjacent);
  }
}
