/** The fallback ladder: suggesting and picking a smaller model
    (internal/llm/llamacpp/catalog.go). */
module Catalog {
  import opened Prelude
  import opened Fit
  import opened Sorting

  datatype Modality = TextModel | Vision

  datatype Model = Model(ref: string, bytes: u64, modality: Modality, code: bool)

  // What the pick needs of a report that refused a model.
  datatype Refusal = Refusal(host: Host, model: u64, mmproj: u64, context: i64, parallel: i64, kvType: KVCacheType)

  datatype Suggestion = Suggestion(model: Model, estimated: u64, fits: bool)

  const MIN_RECOMMENDED_CONTEXT := 2048

  function Wanted(report: Refusal): Modality {
    if report.mmproj > 0 then Vision else TextModel
  }

  predicate Candidate(report: Refusal, m: Model) {
    m.modality == Wanted(report) && m.bytes < report.model
  }

  // The refused request's shape around a candidate, at the given context.
  function CandidateRequest(report: Refusal, m: Model, context: i64): Request {
    Request(m.bytes, 0, 0, context, report.parallel, 0, 0, false, report.kvType, 0)
  }

  predicate Viable(report: Refusal, m: Model, context: i64, policy: Policy) {
    Gate(report.host, CandidateRequest(report, m, context), Effective(policy))
  }

  // A candidate has the modality that was asked for and less bytes, and is judged alone: at the
  // given context, with the refused request's parallelism and cache type, nothing to download
  // and no memory to reclaim.
  lemma CandidateMeans(report: Refusal, m: Model, context: i64, policy: Policy)
    ensures Candidate(report, m) <==>
            m.bytes < report.model && m.modality == if report.mmproj > 0 then Vision else TextModel
    ensures Viable(report, m, context, policy) <==>
            Gate(report.host,
                 Request(model := m.bytes, mmproj := 0, download := 0, context := context,
                         parallel := report.parallel, gpuLayers := 0, vram := 0, unified := false,
                         kvType := report.kvType, reclaimable := 0),
                 Effective(policy))
  {
  }

  // With the default policy, that is so exactly if the formula accepts the candidate.
  lemma ViableIsAccepted(report: Refusal, m: Model, context: i64)
    ensures Viable(report, m, context, DEFAULT) <==> Accepts(report.host, CandidateRequest(report, m, context), DEFAULT)
  {
    GateIsFormula(report.host, CandidateRequest(report, m, context), DEFAULT);
  }

  predicate Larger(a: Model, b: Model) {
    a.bytes >= b.bytes
  }

  function Selected(report: Refusal, ladder: seq<Model>): seq<Model> {
    if ladder == [] then []
    else
      Selected(report, ladder[..|ladder| - 1]) +
      (if Candidate(report, ladder[|ladder| - 1]) then [ladder[|ladder| - 1]] else [])
  }

  lemma {:induction false} SelectedAre(report: Refusal, ladder: seq<Model>, m: Model)
    ensures m in Selected(report, ladder) <==> m in ladder && Candidate(report, m)
  {
    if ladder != [] {
      SelectedAre(report, ladder[..|ladder| - 1], m);
      assert ladder == ladder[..|ladder| - 1] + [ladder[|ladder| - 1]];
    }
  }

  ghost predicate CandidatesOf(report: Refusal, ladder: seq<Model>, c: seq<Model>) {
    Sorted(c, Larger) && forall m :: m in c <==> m in ladder && Candidate(report, m)
  }

  method SmallerCandidates(report: Refusal, ladder: seq<Model>) returns (c: seq<Model>)
    ensures CandidatesOf(report, ladder, c)
  {
    var found: seq<Model> := [];
    for i := 0 to |ladder|
      invariant found == Selected(report, ladder[..i])
    {
      assert ladder[..i + 1][..i] == ladder[..i];
      var m := ladder[i];
      if m.modality == Wanted(report) && m.bytes < report.model {
        found := found + [m];
      }
    }
    assert ladder[..|ladder|] == ladder;
    c := Sort(found, Larger);
    forall m
      ensures m in c <==> m in ladder && Candidate(report, m)
    {
      SelectedAre(report, ladder, m);
      assert m in c <==> m in multiset(c);
      assert m in found <==> m in multiset(found);
    }
  }

  // m is viable and none of the viable candidates of its class is larger.
  ghost predicate LargestOf(report: Refusal, ladder: seq<Model>, context: i64, policy: Policy, m: Model,
                            kind: Model -> bool)
  {
    && m in ladder && Candidate(report, m) && Viable(report, m, context, policy) && kind(m)
    && forall x :: x in ladder && Candidate(report, x) && Viable(report, x, context, policy) && kind(x) ==>
        x.bytes <= m.bytes
  }

  ghost predicate NoneOf(report: Refusal, ladder: seq<Model>, context: i64, policy: Policy, kind: Model -> bool) {
    forall x :: x in ladder && Candidate(report, x) && Viable(report, x, context, policy) ==> !kind(x)
  }

  // None of the first n candidates of a class is viable.
  ghost predicate NoneBefore(report: Refusal, c: seq<Model>, n: nat, context: i64, policy: Policy,
                             kind: Model -> bool)
    requires n <= |c|
  {
    forall j :: 0 <= j < n && kind(c[j]) ==> !Viable(report, c[j], context, policy)
  }

  lemma FirstIsLargest(report: Refusal, ladder: seq<Model>, c: seq<Model>, i: nat, context: i64, policy: Policy,
                       kind: Model -> bool)
    requires CandidatesOf(report, ladder, c) && i < |c| && NoneBefore(report, c, i, context, policy, kind)
    requires kind(c[i]) && Viable(report, c[i], context, policy)
    ensures LargestOf(report, ladder, context, policy, c[i], kind)
  {
    forall x | x in ladder && Candidate(report, x) && Viable(report, x, context, policy) && kind(x)
      ensures x.bytes <= c[i].bytes
    {
      var j :| 0 <= j < |c| && c[j] == x;
    }
  }

  lemma NoneIsNone(report: Refusal, ladder: seq<Model>, c: seq<Model>, context: i64, policy: Policy,
                   kind: Model -> bool)
    requires CandidatesOf(report, ladder, c) && NoneBefore(report, c, |c|, context, policy, kind)
    ensures NoneOf(report, ladder, context, policy, kind)
  {
    forall x | x in ladder && Candidate(report, x) && kind(x)
      ensures !Viable(report, x, context, policy)
    {
      var j :| 0 <= j < |c| && c[j] == x;
    }
  }

  // The first viable candidate of a class, largest first.
  method FirstViable(report: Refusal, ghost ladder: seq<Model>, candidates: seq<Model>, context: i64, policy: Policy,
                     kind: Model -> bool)
    returns (r: Option<Suggestion>)
    requires CandidatesOf(report, ladder, candidates)
    ensures r.Some? ==> LargestOf(report, ladder, context, policy, r.value.model, kind)
    ensures r.Some? ==>
              r.value.estimated == GateRuntime(CandidateRequest(report, r.value.model, context), Effective(policy))
    ensures r.None? ==> NoneOf(report, ladder, context, policy, kind)
    ensures r.Some? ==> r.value.fits
  {
    for i := 0 to |candidates|
      invariant NoneBefore(report, candidates, i, context, policy, kind)
    {
      var m := candidates[i];
      if kind(m) {
        var rep := EstimateFit(report.host, CandidateRequest(report, m, context), policy);
        if rep.fits {
          FirstIsLargest(report, ladder, candidates, i, context, policy, kind);
          return Some(Suggestion(m, rep.runtime, true));
        }
      }
    }
    NoneIsNone(report, ladder, candidates, context, policy, kind);
    r := None;
  }

  predicate Any(m: Model) {
    true
  }

  predicate ForCode(m: Model) {
    m.code
  }

  predicate General(m: Model) {
    !m.code
  }

  // The largest viable candidate; failing that the smallest candidate, marked as such.
  method SuggestSmaller(report: Refusal, ladder: seq<Model>, policy: Policy) returns (r: Option<Suggestion>)
    ensures r.None? <==> forall m :: m in ladder ==> !Candidate(report, m)
    ensures r.Some? ==> r.value.model in ladder && Candidate(report, r.value.model)
    ensures r.Some? && r.value.fits ==>
              && Viable(report, r.value.model, report.context, policy)
              && forall m :: m in ladder && Candidate(report, m) && Viable(report, m, report.context, policy) ==>
                   m.bytes <= r.value.model.bytes
    ensures r.Some? && !r.value.fits ==>
              forall m :: m in ladder && Candidate(report, m) ==>
                !Viable(report, m, report.context, policy) && r.value.model.bytes <= m.bytes
  {
    if report.model == 0 {
      return None;
    }
    var candidates := SmallerCandidates(report, ladder);
    if |candidates| == 0 {
      return None;
    }
    var found := FirstViable(report, ladder, candidates, report.context, policy, Any);
    if found.Some? {
      return found;
    }
    var smallest := candidates[|candidates| - 1];
    assert smallest in candidates;
    var rep := EstimateFit(report.host, CandidateRequest(report, smallest, report.context), policy);
    forall m | m in ladder && Candidate(report, m)
      ensures smallest.bytes <= m.bytes
    {
      assert m in candidates;
      var j :| 0 <= j < |candidates| && candidates[j] == m;
      assert j < |candidates| - 1 ==> Larger(candidates[j], smallest);
    }
    r := Some(Suggestion(smallest, rep.runtime, false));
  }

  // A viable model, for code if any such is viable, the largest of its class.
  ghost predicate BestPick(report: Refusal, ladder: seq<Model>, policy: Policy, m: Model) {
    && m in ladder && Candidate(report, m) && Viable(report, m, 2048, policy)
    && forall x :: x in ladder && Candidate(report, x) && Viable(report, x, 2048, policy) ==>
         (x.code ==> m.code) && (x.code == m.code ==> x.bytes <= m.bytes)
  }

  method AutoPick(report: Refusal, ladder: seq<Model>, policy: Policy) returns (r: Option<Suggestion>)
    ensures r.Some? ==> r.value.model in ladder && Candidate(report, r.value.model)
    ensures r.Some? ==> BestPick(report, ladder, policy, r.value.model)
    ensures r.None? <==> forall m :: m in ladder && Candidate(report, m) ==>
              !Viable(report, m, 2048, policy)
  {
    if report.model == 0 {
      return None;
    }
    var candidates := SmallerCandidates(report, ladder);
    r := FirstViable(report, ladder, candidates, MIN_RECOMMENDED_CONTEXT, policy, ForCode);
    if r.None? {
      r := FirstViable(report, ladder, candidates, MIN_RECOMMENDED_CONTEXT, policy, General);
    }
  }
}
