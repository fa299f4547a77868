/** The in-memory index: a stable top list per collection, then a stable merge
    (internal/rag/index.go). Cosine similarity is an oracle over real vectors. */
module Search {
  import opened Prelude
  import opened Sorting
  import Text

  datatype Chunk = Chunk(id: string, source: string, heading: string, ordinal: int, text: string, vector: seq<real>)

  datatype Collection = Collection(name: string, kind: string, embedder: string, dim: int, chunks: seq<Chunk>)

  datatype Hit = Hit(collection: string, chunk: Chunk, score: real)

  datatype Query = Query(vector: seq<real>, embedder: string, threshold: real)

  datatype Scored = Scored(idx: nat, score: real)

  datatype SearchError = EmptyQuery | ZeroNorm

  type Similarity = (seq<real>, seq<real>) -> real

  predicate ScoredBefore(a: Scored, b: Scored) {
    a.score >= b.score
  }

  predicate Before(a: Hit, b: Hit) {
    a.score >= b.score
  }

  lemma BeforeIsOrder()
    ensures TotalPreorder(Before) && TotalPreorder(ScoredBefore)
  {
  }

  function Take<T>(s: seq<T>, k: nat): seq<T> {
    if |s| > k then s[..k] else s
  }

  predicate IsMemory(c: Collection) {
    c.kind == "memory" || c.name == "memory"
  }

  function Times(a: real, b: real): real {
    a * b
  }

  function NormSquared(v: seq<real>): real {
    if v == [] then 0.0 else NormSquared(v[..|v| - 1]) + Times(v[|v| - 1], v[|v| - 1])
  }

  lemma SquareSign(x: real)
    ensures x == 0.0 ==> Times(x, x) == 0.0
    ensures x != 0.0 ==> Times(x, x) > 0.0
  {
    if x > 0.0 {
      TimesPositive(x, x);
    } else if x < 0.0 {
      TimesPositive(-x, -x);
      TimesMirrors(x, x);
    }
  }

  lemma TimesPositive(a: real, b: real)
    requires a > 0.0 && b > 0.0
    ensures Times(a, b) > 0.0
  {
  }

  lemma TimesMirrors(a: real, b: real)
    ensures Times(a, b) == Times(-a, -b)
  {
  }

  lemma {:induction false} NormMeans(v: seq<real>)
    ensures NormSquared(v) >= 0.0
    ensures NormSquared(v) == 0.0 <==> forall i :: 0 <= i < |v| ==> v[i] == 0.0
  {
    if v != [] {
      var n := |v| - 1;
      NormMeans(v[..n]);
      SquareSign(v[n]);
      if v[n] == 0.0 {
        assert forall i :: 0 <= i < n ==> v[..n][i] == v[i];
      }
    }
  }

  // ---------- one collection ----------

  predicate Counts(ch: Chunk, q: Query, cosine: Similarity) {
    |ch.vector| == |q.vector| && cosine(q.vector, ch.vector) >= q.threshold
  }

  // The chunks at or over the threshold, scored, in the collection's order.
  function ScoredOf(chunks: seq<Chunk>, q: Query, cosine: Similarity): (r: seq<Scored>)
    ensures forall i :: 0 <= i < |r| ==> r[i].idx < |chunks|
  {
    if chunks == [] then []
    else
      var n := |chunks| - 1;
      ScoredOf(chunks[..n], q, cosine) +
      (if Counts(chunks[n], q, cosine) then [Scored(n, cosine(q.vector, chunks[n].vector))] else [])
  }

  function HitOf(c: Collection, s: Scored): Hit
    requires s.idx < |c.chunks|
  {
    Hit(c.name, c.chunks[s.idx], s.score)
  }

  ghost predicate InRange(c: Collection, s: seq<Scored>) {
    forall i :: 0 <= i < |s| ==> s[i].idx < |c.chunks|
  }

  function HitsOf(c: Collection, s: seq<Scored>): (r: seq<Hit>)
    requires InRange(c, s)
    ensures |r| == |s|
  {
    if s == [] then [] else HitsOf(c, s[..|s| - 1]) + [HitOf(c, s[|s| - 1])]
  }

  // The hits of a collection, in its order.
  function Eligible(c: Collection, q: Query, cosine: Similarity): seq<Hit> {
    HitsOf(c, ScoredOf(c.chunks, q, cosine))
  }

  // A chunk is a hit if its vector has the query's length and scores the threshold.
  lemma EligibleMeans(c: Collection, ch: Chunk, q: Query, cosine: Similarity)
    ensures Eligible(c.(chunks := []), q, cosine) == []
    ensures Eligible(c.(chunks := c.chunks + [ch]), q, cosine) ==
            Eligible(c, q, cosine) +
            (if |ch.vector| == |q.vector| && cosine(q.vector, ch.vector) >= q.threshold
             then [Hit(c.name, ch, cosine(q.vector, ch.vector))]
             else [])
  {
    var more := c.(chunks := c.chunks + [ch]);
    assert more.chunks[..|c.chunks|] == c.chunks;
    var before := ScoredOf(c.chunks, q, cosine);
    SameHits(c, more, before);
    if Counts(ch, q, cosine) {
      var last := Scored(|c.chunks|, cosine(q.vector, ch.vector));
      HitsAppend(more, before, [last]);
      OneHit(more, last);
    } else {
      assert ScoredOf(more.chunks, q, cosine) == before;
    }
  }

  lemma {:induction false} SameHits(c: Collection, d: Collection, s: seq<Scored>)
    requires InRange(c, s) && c.name == d.name && c.chunks <= d.chunks
    ensures InRange(d, s) && HitsOf(c, s) == HitsOf(d, s)
  {
    if s != [] {
      SameHits(c, d, s[..|s| - 1]);
    }
  }

  // The first k of the stably sorted hits.
  function Best(hits: seq<Hit>, k: nat): seq<Hit> {
    Take(StableSort(hits, Before), k)
  }

  lemma {:induction false} HitsAppend(c: Collection, a: seq<Scored>, b: seq<Scored>)
    requires InRange(c, a) && InRange(c, b)
    ensures InRange(c, a + b) && HitsOf(c, a + b) == HitsOf(c, a) + HitsOf(c, b)
    decreases |b|
  {
    if b == [] {
      assert a + b == a;
    } else {
      assert (a + b)[..|a + b| - 1] == a + b[..|b| - 1];
      HitsAppend(c, a, b[..|b| - 1]);
    }
  }

  lemma HitsFront(c: Collection, x: Scored, rest: seq<Scored>)
    requires x.idx < |c.chunks| && InRange(c, rest)
    ensures InRange(c, [x] + rest) && HitsOf(c, [x] + rest) == [HitOf(c, x)] + HitsOf(c, rest)
  {
    assert [x][..0] == [];
    HitsAppend(c, [x], rest);
  }

  lemma {:induction false} HitsMerge(c: Collection, p: seq<Scored>, q: seq<Scored>)
    requires InRange(c, p) && InRange(c, q)
    ensures InRange(c, Merge(p, q, ScoredBefore))
    ensures HitsOf(c, Merge(p, q, ScoredBefore)) == Merge(HitsOf(c, p), HitsOf(c, q), Before)
    decreases |p| + |q|
  {
    if p != [] && q != [] {
      assert p == [p[0]] + p[1..] && q == [q[0]] + q[1..];
      HitsFront(c, p[0], p[1..]);
      HitsFront(c, q[0], q[1..]);
      if ScoredBefore(p[0], q[0]) {
        HitsMerge(c, p[1..], q);
        HitsFront(c, p[0], Merge(p[1..], q, ScoredBefore));
        MergeStep(HitOf(c, p[0]), HitsOf(c, p[1..]), HitsOf(c, q));
      } else {
        HitsMerge(c, p, q[1..]);
        HitsFront(c, q[0], Merge(p, q[1..], ScoredBefore));
        MergeOther(HitsOf(c, p), HitOf(c, q[0]), HitsOf(c, q[1..]));
      }
    }
  }

  lemma MergeStep(x: Hit, p: seq<Hit>, q: seq<Hit>)
    requires q != [] && Before(x, q[0])
    ensures Merge([x] + p, q, Before) == [x] + Merge(p, q, Before)
  {
    assert ([x] + p)[1..] == p;
  }

  lemma MergeOther(p: seq<Hit>, x: Hit, q: seq<Hit>)
    requires p != [] && !Before(p[0], x)
    ensures Merge(p, [x] + q, Before) == [x] + Merge(p, q, Before)
  {
    assert ([x] + q)[1..] == q;
  }

  lemma OneHit(c: Collection, x: Scored)
    requires x.idx < |c.chunks|
    ensures HitsOf(c, [x]) == [HitOf(c, x)]
  {
    assert [x][..0] == [];
  }

  lemma SortLast(hits: seq<Hit>, x: Hit)
    ensures StableSort(hits + [x], Before) == Merge(StableSort(hits, Before), [x], Before)
  {
    assert (hits + [x])[..|hits|] == hits;
  }

  // Sorting the scored positions sorts the hits.
  lemma {:induction false} HitsSort(c: Collection, s: seq<Scored>)
    requires InRange(c, s)
    ensures InRange(c, StableSort(s, ScoredBefore))
    ensures HitsOf(c, StableSort(s, ScoredBefore)) == StableSort(HitsOf(c, s), Before)
  {
    if s != [] {
      var n := |s| - 1;
      HitsSort(c, s[..n]);
      OneHit(c, s[n]);
      HitsMerge(c, StableSort(s[..n], ScoredBefore), [s[n]]);
      SortLast(HitsOf(c, s[..n]), HitOf(c, s[n]));
    }
  }

  method ScoreAll(c: Collection, q: Query, cosine: Similarity) returns (scoredAll: seq<Scored>)
    ensures scoredAll == ScoredOf(c.chunks, q, cosine)
  {
    scoredAll := [];
    for i := 0 to |c.chunks|
      invariant scoredAll == ScoredOf(c.chunks[..i], q, cosine)
    {
      assert c.chunks[..i + 1][..i] == c.chunks[..i];
      var ch := c.chunks[i];
      if |ch.vector| == |q.vector| {
        var s := cosine(q.vector, ch.vector);
        if s >= q.threshold {
          scoredAll := scoredAll + [Scored(i, s)];
        }
      }
    }
    assert c.chunks[..|c.chunks|] == c.chunks;
  }

  lemma {:induction false} HitsTake(c: Collection, s: seq<Scored>, n: nat)
    requires n <= |s| && InRange(c, s)
    ensures HitsOf(c, s[..n]) == HitsOf(c, s)[..n]
  {
    assert s == s[..n] + s[n..];
    HitsAppend(c, s[..n], s[n..]);
  }

  method ToHits(c: Collection, s: seq<Scored>) returns (out: seq<Hit>)
    requires InRange(c, s)
    ensures out == HitsOf(c, s)
  {
    out := [];
    for i := 0 to |s|
      invariant out == HitsOf(c, s[..i])
    {
      assert s[..i + 1][..i] == s[..i];
      out := out + [HitOf(c, s[i])];
    }
    assert s[..|s|] == s;
  }

  method TopKInCollection(c: Collection, q: Query, cap: nat, cosine: Similarity) returns (out: seq<Hit>)
    ensures out == Best(Eligible(c, q, cosine), cap)
  {
    var scoredAll := ScoreAll(c, q, cosine);
    HitsSort(c, scoredAll);
    scoredAll := StableSort(scoredAll, ScoredBefore);
    if |scoredAll| > cap {
      HitsTake(c, scoredAll, cap);
      scoredAll := scoredAll[..cap];
    }
    out := ToHits(c, scoredAll);
  }

  // ---------- all collections ----------

  predicate Searched(collections: map<string, Collection>, name: string, q: Query) {
    name in collections &&
    var c := collections[name]; !IsMemory(c) && c.embedder == q.embedder && c.dim == |q.vector|
  }

  function OfName(collections: map<string, Collection>, name: string, q: Query, cosine: Similarity): seq<Hit> {
    if Searched(collections, name, q) then Eligible(collections[name], q, cosine) else []
  }

  // All hits over the threshold, target by target.
  function AllEligible(collections: map<string, Collection>, targets: seq<string>, q: Query,
                       cosine: Similarity): seq<Hit>
  {
    if targets == [] then []
    else
      AllEligible(collections, targets[..|targets| - 1], q, cosine) +
      OfName(collections, targets[|targets| - 1], q, cosine)
  }

  // The same after each target's hits are sorted and cut.
  function AllCut(collections: map<string, Collection>, targets: seq<string>, q: Query, cap: nat,
                  cosine: Similarity): seq<Hit>
  {
    if targets == [] then []
    else
      AllCut(collections, targets[..|targets| - 1], q, cap, cosine) +
      Best(OfName(collections, targets[|targets| - 1], q, cosine), cap)
  }

  // Target by target; a target counts if it is there, is no memory and fits the query.
  lemma AllMean(collections: map<string, Collection>, targets: seq<string>, name: string, q: Query, cap: nat,
                cosine: Similarity)
    ensures AllEligible(collections, [], q, cosine) == [] == AllCut(collections, [], q, cap, cosine)
    ensures var there := name in collections;
            var serves := there && collections[name].kind != "memory" && collections[name].name != "memory" &&
                          collections[name].embedder == q.embedder && collections[name].dim == |q.vector|;
            var hits := if serves then Eligible(collections[name], q, cosine) else [];
            var sorted := StableSort(hits, Before);
            && AllEligible(collections, targets + [name], q, cosine) ==
               AllEligible(collections, targets, q, cosine) + hits
            && AllCut(collections, targets + [name], q, cap, cosine) ==
               AllCut(collections, targets, q, cap, cosine) + sorted[..if cap < |sorted| then cap else |sorted|]
  {
    assert (targets + [name])[..|targets|] == targets;
  }

  class Index {
    var collections: map<string, Collection>

    constructor ()
      ensures collections == map[] && Keyed(collections)
    {
      collections := map[];
    }

    method Replace(c: Collection)
      modifies this
      ensures collections == old(collections)[c.name := c]
      ensures Keyed(old(collections)) ==> Keyed(collections)
    {
      collections := collections[c.name := c];
    }

    method Gather(q: Query, names: seq<string>, cap: nat, cosine: Similarity) returns (all: seq<Hit>)
      ensures all == AllCut(collections, names, q, cap, cosine)
    {
      all := [];
      for i := 0 to |names|
        invariant all == AllCut(collections, names[..i], q, cap, cosine)
      {
        assert names[..i + 1][..i] == names[..i];
        assert Best([], cap) == [];
        var name := names[i];
        if name in collections {
          var c := collections[name];
          if !IsMemory(c) && c.embedder == q.embedder && c.dim == |q.vector| {
            var hits := TopKInCollection(c, q, cap, cosine);
            all := all + hits;
          }
        }
      }
      assert names[..|names|] == names;
    }

    method Search(q: Query, filter: seq<string>, k: int, perCollectionCap: int, cosine: Similarity)
      returns (r: Result<seq<Hit>, SearchError>, ghost targets: seq<string>)
      ensures r == Err(EmptyQuery) <==> q.vector == []
      ensures r == Err(ZeroNorm) <==> q.vector != [] && forall i :: 0 <= i < |q.vector| ==> q.vector[i] == 0.0
      ensures filter != [] ==> targets == filter
      ensures filter == [] && r.Ok? ==> Text.Listing(targets, collections.Keys)
      ensures r.Ok? ==>
                var n := if k > 0 then k else 4;
                var cap := if perCollectionCap > 0 then perCollectionCap else n;
                r.value == Best(AllCut(collections, targets, q, cap, cosine), n)
    {
      targets := filter;
      if q.vector == [] {
        return Err(EmptyQuery), targets;
      }
      var n := if k <= 0 then 4 else k;
      var cap := if perCollectionCap <= 0 then n else perCollectionCap;
      NormMeans(q.vector);
      if NormSquared(q.vector) == 0.0 {
        return Err(ZeroNorm), targets;
      }
      var names := filter;
      if |names| == 0 {
        names := Text.SortedKeys(collections.Keys);
      }
      targets := names;
      var all := Gather(q, names, cap, cosine);
      all := StableSort(all, Before);
      if |all| > n {
        all := all[..n];
      }
      r := Ok(all);
    }
  }

  // ---------- cutting early changes nothing ----------

  lemma TakeFront(x: Hit, s: seq<Hit>, k: nat)
    requires k > 0
    ensures Take([x] + s, k) == [x] + Take(s, k - 1)
  {
  }

  // The first k of a merge need only the first c of either side.
  lemma {:induction false} TakeMerge(p: seq<Hit>, q: seq<Hit>, k: nat, c: nat, d: nat)
    requires k <= c && k <= d
    ensures Take(Merge(Take(p, c), Take(q, d), Before), k) == Take(Merge(p, q, Before), k)
    decreases |p| + |q|
  {
    if k > 0 && p != [] && q != [] {
      assert p == [p[0]] + p[1..] && q == [q[0]] + q[1..];
      if Before(p[0], q[0]) {
        TakeMerge(p[1..], q, k - 1, c - 1, d);
        TakeMergeLeft(p[0], p[1..], q, k, c, d);
      } else {
        TakeMerge(p, q[1..], k - 1, c, d - 1);
        TakeMergeRight(p, q[0], q[1..], k, c, d);
      }
    }
  }

  lemma TakeMergeLeft(x: Hit, p: seq<Hit>, q: seq<Hit>, k: nat, c: nat, d: nat)
    requires 0 < k <= c && k <= d && q != [] && Before(x, q[0])
    requires Take(Merge(Take(p, c - 1), Take(q, d), Before), k - 1) == Take(Merge(p, q, Before), k - 1)
    ensures Take(Merge(Take([x] + p, c), Take(q, d), Before), k) == Take(Merge([x] + p, q, Before), k)
  {
    TakeFront(x, p, c);
    MergeStep(x, p, q);
    MergeStep(x, Take(p, c - 1), Take(q, d));
    TakeFront(x, Merge(p, q, Before), k);
    TakeFront(x, Merge(Take(p, c - 1), Take(q, d), Before), k);
  }

  lemma TakeMergeRight(p: seq<Hit>, x: Hit, q: seq<Hit>, k: nat, c: nat, d: nat)
    requires 0 < k <= c && k <= d && p != [] && !Before(p[0], x)
    requires Take(Merge(Take(p, c), Take(q, d - 1), Before), k - 1) == Take(Merge(p, q, Before), k - 1)
    ensures Take(Merge(Take(p, c), Take([x] + q, d), Before), k) == Take(Merge(p, [x] + q, Before), k)
  {
    TakeFront(x, q, d);
    MergeOther(p, x, q);
    MergeOther(Take(p, c), x, Take(q, d - 1));
    TakeFront(x, Merge(p, q, Before), k);
    TakeFront(x, Merge(Take(p, c), Take(q, d - 1), Before), k);
  }

  lemma TakeTwice(s: seq<Hit>, k: nat, c: nat)
    requires k <= c
    ensures Take(Take(s, c), k) == Take(s, k)
  {
  }

  // The best hits are the first k of the stable sort, no score below a later one.
  lemma BestMeans(hits: seq<Hit>, k: nat)
    ensures var best, sorted := Best(hits, k), StableSort(hits, Before);
            && |sorted| == |hits| && best == sorted[..if k < |hits| then k else |hits|]
            && forall i, j :: 0 <= i < j < |sorted| ==> sorted[i].score >= sorted[j].score
  {
    BeforeIsOrder();
    SortSorts(hits, Before);
    SortedByScore(StableSort(hits, Before));
  }

  lemma SortedByScore(hits: seq<Hit>)
    requires Sorted(hits, Before)
    ensures forall i, j :: 0 <= i < j < |hits| ==> hits[i].score >= hits[j].score
  {
    forall i, j | 0 <= i < j < |hits|
      ensures hits[i].score >= hits[j].score
    {
      assert Before(hits[i], hits[j]);
    }
  }

  lemma BestIsSorted(hits: seq<Hit>, k: nat)
    ensures Sorted(Best(hits, k), Before) && StableSort(Best(hits, k), Before) == Best(hits, k)
  {
    BeforeIsOrder();
    SortSorts(hits, Before);
    SortedStays(Best(hits, k), Before);
  }

  // Cutting a part to its best before joining it leaves the best of the whole.
  lemma BestOfParts(a: seq<Hit>, a': seq<Hit>, b: seq<Hit>, k: nat, c: nat)
    requires k <= c && Best(a', k) == Best(a, k)
    ensures Best(a' + Best(b, c), k) == Best(a + b, k)
  {
    BeforeIsOrder();
    SortOfParts(a, b, Before);
    SortOfParts(a', Best(b, c), Before);
    BestIsSorted(b, c);
    var p, p', q := StableSort(a, Before), StableSort(a', Before), StableSort(b, Before);
    TakeMerge(p, q, k, k, c);
    TakeMerge(p', q, k, k, c);
    TakeMerge(p', Take(q, c), k, k, c);
    TakeTwice(q, c, c);
  }

  // With a cap of at least k, the search is one stable sort of everything eligible.
  lemma {:induction false} CapDoesNotMatter(collections: map<string, Collection>, targets: seq<string>, q: Query,
                                            k: nat, cap: nat, cosine: Similarity)
    requires k <= cap
    ensures Best(AllCut(collections, targets, q, cap, cosine), k) ==
            Best(AllEligible(collections, targets, q, cosine), k)
    decreases |targets|
  {
    if targets != [] {
      var n := |targets| - 1;
      CapDoesNotMatter(collections, targets[..n], q, k, cap, cosine);
      BestOfParts(AllEligible(collections, targets[..n], q, cosine), AllCut(collections, targets[..n], q, cap, cosine),
                  OfName(collections, targets[n], q, cosine), k, cap);
    }
  }

  // ---------- what one collection may contribute ----------

  function Count(hits: seq<Hit>, name: string): nat {
    if hits == [] then 0 else Count(hits[..|hits| - 1], name) + (if hits[|hits| - 1].collection == name then 1 else 0)
  }

  lemma {:induction false} CountAppend(a: seq<Hit>, b: seq<Hit>, name: string)
    ensures Count(a + b, name) == Count(a, name) + Count(b, name)
    decreases |b|
  {
    if b == [] {
      assert a + b == a;
    } else {
      assert (a + b)[..|a + b| - 1] == a + b[..|b| - 1];
      CountAppend(a, b[..|b| - 1], name);
    }
  }

  lemma {:induction false} CountMerge(p: seq<Hit>, q: seq<Hit>, name: string)
    ensures Count(Merge(p, q, Before), name) == Count(p, name) + Count(q, name)
    decreases |p| + |q|
  {
    if p != [] && q != [] {
      assert p == [p[0]] + p[1..] && q == [q[0]] + q[1..];
      CountAppend([p[0]], p[1..], name);
      CountAppend([q[0]], q[1..], name);
      if Before(p[0], q[0]) {
        CountMerge(p[1..], q, name);
        CountAppend([p[0]], Merge(p[1..], q, Before), name);
      } else {
        CountMerge(p, q[1..], name);
        CountAppend([q[0]], Merge(p, q[1..], Before), name);
      }
    }
  }

  lemma {:induction false} CountSort(hits: seq<Hit>, name: string)
    ensures Count(StableSort(hits, Before), name) == Count(hits, name)
  {
    if hits != [] {
      var n := |hits| - 1;
      CountSort(hits[..n], name);
      CountMerge(StableSort(hits[..n], Before), [hits[n]], name);
      CountAppend(hits[..n], [hits[n]], name);
      assert hits == hits[..n] + [hits[n]];
    }
  }

  lemma {:induction false} CountBounded(hits: seq<Hit>, name: string)
    ensures Count(hits, name) <= |hits|
  {
    if hits != [] {
      CountBounded(hits[..|hits| - 1], name);
    }
  }

  lemma CountBest(hits: seq<Hit>, k: nat, name: string)
    ensures Count(Best(hits, k), name) <= Count(hits, name) && Count(Best(hits, k), name) <= k
  {
    var sorted := StableSort(hits, Before);
    CountSort(hits, name);
    CountBounded(Best(hits, k), name);
    if |sorted| > k {
      assert sorted == sorted[..k] + sorted[k..];
      CountAppend(sorted[..k], sorted[k..], name);
    }
  }

  // How often the filter names a collection.
  function Occurrences(targets: seq<string>, name: string): nat {
    if targets == [] then 0
    else Occurrences(targets[..|targets| - 1], name) + if targets[|targets| - 1] == name then 1 else 0
  }

  lemma {:induction false} OccurrencesAre(targets: seq<string>, name: string)
    ensures Occurrences(targets, name) == multiset(targets)[name]
  {
    if targets != [] {
      var n := |targets| - 1;
      OccurrencesAre(targets[..n], name);
      assert targets == targets[..n] + [targets[n]];
    }
  }

  function Min(a: nat, b: nat): nat {
    if a <= b then a else b
  }

  ghost predicate Keyed(collections: map<string, Collection>) {
    forall n :: n in collections ==> collections[n].name == n
  }

  lemma {:induction false} CountHits(c: Collection, s: seq<Scored>, name: string)
    requires InRange(c, s)
    ensures Count(HitsOf(c, s), name) == if c.name == name then |s| else 0
  {
    if s != [] {
      CountHits(c, s[..|s| - 1], name);
    }
  }

  // The best of hits of one collection are all of that collection.
  lemma CountBestOfOne(hits: seq<Hit>, cap: nat, name: string)
    requires Count(hits, name) == |hits|
    ensures Count(Best(hits, cap), name) == Min(cap, |hits|)
  {
    var sorted := StableSort(hits, Before);
    CountSort(hits, name);
    BeforeIsOrder();
    SortSorts(hits, Before);
    if |sorted| > cap {
      assert sorted == sorted[..cap] + sorted[cap..];
      CountAppend(sorted[..cap], sorted[cap..], name);
      CountBounded(sorted[..cap], name);
      CountBounded(sorted[cap..], name);
    }
  }

  lemma CountTarget(collections: map<string, Collection>, target: string, q: Query, cap: nat, cosine: Similarity,
                    name: string)
    requires Keyed(collections)
    ensures Count(Best(OfName(collections, target, q, cosine), cap), name) ==
            if target == name then Min(cap, |OfName(collections, name, q, cosine)|) else 0
  {
    var hits := OfName(collections, target, q, cosine);
    if Searched(collections, target, q) {
      CountHits(collections[target], ScoredOf(collections[target].chunks, q, cosine), name);
    }
    if target == name {
      CountBestOfOne(hits, cap, name);
    } else {
      CountBest(hits, cap, name);
    }
  }

  // A target brings its first hits up to the cap, every time it is named.
  lemma {:induction false} CutCount(collections: map<string, Collection>, targets: seq<string>, q: Query, cap: nat,
                                    cosine: Similarity, name: string)
    requires Keyed(collections)
    ensures Count(AllCut(collections, targets, q, cap, cosine), name) ==
            Occurrences(targets, name) * Min(cap, |OfName(collections, name, q, cosine)|)
    decreases |targets|
  {
    if targets != [] {
      var front, last := targets[..|targets| - 1], targets[|targets| - 1];
      CutCount(collections, front, q, cap, cosine, name);
      CountAppend(AllCut(collections, front, q, cap, cosine), Best(OfName(collections, last, q, cosine), cap), name);
      CountTarget(collections, last, q, cap, cosine, name);
      OneMore(Occurrences(front, name), Min(cap, |OfName(collections, name, q, cosine)|));
    }
  }

  lemma OneMore(n: nat, m: nat)
    ensures (n + 1) * m == n * m + m
  {
  }

  // What a collection brings to the results of a search for k.
  function Contribution(collections: map<string, Collection>, targets: seq<string>, q: Query, k: nat, cap: nat,
                        cosine: Similarity, name: string): nat
  {
    Count(Best(AllCut(collections, targets, q, cap, cosine), k), name)
  }

  lemma CountWhole(hits: seq<Hit>, name: string)
    ensures Count(Best(hits, |hits|), name) == Count(hits, name)
  {
    BeforeIsOrder();
    SortSorts(hits, Before);
    CountSort(hits, name);
  }

  // The cap limits a collection for every k exactly if its hits up to the cap, as often
  // as the filter names it, stay within the cap.
  lemma CapLimits(collections: map<string, Collection>, targets: seq<string>, q: Query, cap: nat, cosine: Similarity,
                  name: string)
    requires Keyed(collections)
    ensures (forall k: nat :: Contribution(collections, targets, q, k, cap, cosine, name) <= cap) <==>
            Occurrences(targets, name) * Min(cap, |OfName(collections, name, q, cosine)|) <= cap
  {
    var all := AllCut(collections, targets, q, cap, cosine);
    CutCount(collections, targets, q, cap, cosine, name);
    CountWhole(all, name);
    assert Contribution(collections, targets, q, |all|, cap, cosine, name) == Count(all, name);
    forall k: nat
      ensures Contribution(collections, targets, q, k, cap, cosine, name) <= Count(all, name)
    {
      CountBest(all, k, name);
    }
  }

  // That is so for every index if no target is named twice.
  lemma {:induction false} NamedOnce(targets: seq<string>, name: string)
    requires forall i, j :: 0 <= i < j < |targets| ==> targets[i] != targets[j]
    ensures Occurrences(targets, name) == if name in targets then 1 else 0
  {
    if targets != [] {
      NamedOnce(targets[..|targets| - 1], name);
    }
  }

  // Named twice with a cap of 1, a collection with a hit brings two.
  lemma CapExceeded(collections: map<string, Collection>, q: Query, cosine: Similarity, name: string)
    requires Keyed(collections) && OfName(collections, name, q, cosine) != []
    ensures Contribution(collections, [name, name], q, 2, 1, cosine, name) == 2
  {
    var targets := [name, name];
    var hits := OfName(collections, name, q, cosine);
    var all := AllCut(collections, targets, q, 1, cosine);
    assert targets[..1] == [name] && [name][..0] == [];
    assert AllCut(collections, [name], q, 1, cosine) == Best(hits, 1) && all == Best(hits, 1) + Best(hits, 1);
    CountTarget(collections, name, q, 1, cosine, name);
    CountAppend(Best(hits, 1), Best(hits, 1), name);
    CountBounded(all, name);
    CountWhole(all, name);
  }

  // Such an index: one collection of one chunk over the threshold.
  lemma NamedTwice(chunk: Chunk, q: Query, cosine: Similarity)
    requires Counts(chunk, q, cosine)
    ensures var c := Collection("a", "docs", q.embedder, |q.vector|, [chunk]);
            Contribution(map["a" := c], ["a", "a"], q, 2, 1, cosine, "a") == 2
  {
    var c := Collection("a", "docs", q.embedder, |q.vector|, [chunk]);
    assert |ScoredOf([chunk], q, cosine)| == 1;
    CapExceeded(map["a" := c], q, cosine, "a");
  }
}
