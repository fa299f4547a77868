/** Starting a model and, when it is refused for its size, smaller ones in its place
    (cmd/agent/provider.go: startLlamaRuntime). Starting and parsing references are
    the environment's. */
module Launch {
  import opened Prelude
  import Catalog
  import Fit

  // The report of a refusal carries what the pick needs.
  datatype Outcome = Started | Refused(report: Catalog.Refusal) | Broken

  // Every start so far: the repository, none for a model path, and what came of it.
  datatype Attempt = Attempt(repo: Option<string>, outcome: Outcome)

  class Host {
    var attempts: seq<Attempt>

    constructor ()
      ensures attempts == []
    {
      attempts := [];
    }

    method Start(repo: Option<string>) returns (outcome: Outcome)
      modifies this
      ensures attempts == old(attempts) + [Attempt(repo, outcome)]
    {
      outcome := Broken;
      if * {
        outcome := Started;
      } else if * {
        var host: Fit.Host := *;
        var model: Fit.u64 := *;
        var mmproj: Fit.u64 := *;
        var context: Fit.i64 := *;
        var parallel: Fit.i64 := *;
        var kvType: Fit.KVCacheType := *;
        outcome := Refused(Catalog.Refusal(host, model, mmproj, context, parallel, kvType));
      }
      attempts := attempts + [Attempt(repo, outcome)];
    }
  }

  type Parse = string -> Option<string>

  // The repositories the ladder leads to.
  function Repos(ladder: seq<Catalog.Model>, parse: Parse): set<string> {
    set m | m in ladder && parse(m.ref).Some? :: parse(m.ref).value
  }

  // No repository is started twice.
  ghost predicate NoneTwice(attempts: seq<Attempt>) {
    forall i, j :: 0 <= i < j < |attempts| ==> attempts[i].repo != attempts[j].repo
  }

  // Every start but the first is the best pick for the refusal just before it.
  ghost predicate EachPicked(attempts: seq<Attempt>, ladder: seq<Catalog.Model>, parse: Parse) {
    forall i: nat :: 0 < i < |attempts| ==> Picked(attempts, i, ladder, parse)
  }

  ghost predicate Picked(attempts: seq<Attempt>, i: nat, ladder: seq<Catalog.Model>, parse: Parse) {
    exists m :: PickedAt(attempts, i, m, ladder, parse)
  }

  // Model m was picked for start i.
  ghost predicate PickedAt(attempts: seq<Attempt>, i: nat, m: Catalog.Model, ladder: seq<Catalog.Model>, parse: Parse) {
    && 0 < i < |attempts| && attempts[i - 1].outcome.Refused? && attempts[i].repo.Some?
    && Picks(attempts[i - 1].outcome.report, m, ladder) && parse(m.ref) == attempts[i].repo
  }

  ghost predicate Picks(report: Catalog.Refusal, m: Catalog.Model, ladder: seq<Catalog.Model>) {
    m in ladder && Catalog.BestPick(report, ladder, Fit.DEFAULT, m)
  }

  datatype Launched = Running(picked: Option<string>) | Failed

  // What a launch may have come to.
  ghost predicate Outline(attempts: seq<Attempt>, repo: Option<string>, autoPick: bool, ladder: seq<Catalog.Model>,
                          parse: Parse)
  {
    && attempts != [] && attempts[0].repo == repo
    && NoneTwice(attempts) && EachPicked(attempts, ladder, parse)
    && |attempts| <= 1 + |Repos(ladder, parse)|
    && (!autoPick || repo.None? ==> |attempts| == 1)
  }

  ghost predicate Served(r: Launched, attempts: seq<Attempt>, parse: Parse)
    requires attempts != []
  {
    && (r.Running? <==> attempts[|attempts| - 1].outcome == Started)
    && (r.Running? ==> (r.picked.None? <==> |attempts| == 1))
    && (r.Running? && r.picked.Some? ==> parse(r.picked.value) == attempts[|attempts| - 1].repo)
  }

  method StartRuntime(host: Host, repo: Option<string>, autoPick: bool, ladder: seq<Catalog.Model>, parse: Parse)
    returns (r: Launched)
    requires host.attempts == []
    modifies host
    ensures Outline(host.attempts, repo, autoPick, ladder, parse)
    ensures Served(r, host.attempts, parse)
    ensures r.Failed? && autoPick && repo.Some? ==> GaveUp(host.attempts, ladder, parse)
  {
    var outcome := host.Start(repo);
    if outcome == Started {
      return Running(None);
    }
    if !autoPick || repo.None? {
      return Failed;
    }
    Begins(host.attempts, repo.value, ladder, parse);
    r := Substitute(host, outcome, repo.value, ladder, parse);
  }

  // The reference to start next, if there is one that was not started before.
  method NextRef(host: Host, report: Catalog.Refusal, visited: set<string>, ghost first: string,
                 ladder: seq<Catalog.Model>, parse: Parse)
    returns (m: Option<Catalog.Model>, ref: Option<string>)
    requires Walk(host.attempts, visited, first, ladder, parse) &&
             host.attempts[|host.attempts| - 1].outcome == Refused(report)
    ensures ref.None? ==> GaveUp(host.attempts, ladder, parse)
    ensures ref.Some? ==> m.Some? && parse(m.value.ref) == ref && ref.value !in visited
    // Whatever comes of it, starting it is a step of the walk.
    ensures ref.Some? ==>
              forall o :: Walk(host.attempts + [Attempt(ref, o)], visited + {ref.value}, first, ladder, parse)
  {
    m := NextPick(report, ladder);
    if m.None? {
      return m, None;
    }
    ref := parse(m.value.ref);
    if ref.None? || ref.value in visited {
      NothingNew(host.attempts, visited, first, ladder, parse, m.value);
      ref := None;
    } else {
      forall o
        ensures Walk(host.attempts + [Attempt(ref, o)], visited + {ref.value}, first, ladder, parse)
      {
        Goes(host.attempts, visited, first, ladder, parse, m.value, o);
      }
    }
  }

  // The retry loop.
  method Substitute(host: Host, refusal: Outcome, first: string, ladder: seq<Catalog.Model>, parse: Parse)
    returns (r: Launched)
    requires Walk(host.attempts, {first}, first, ladder, parse) &&
             host.attempts[|host.attempts| - 1].outcome == refusal != Started
    modifies host
    ensures Outline(host.attempts, Some(first), true, ladder, parse)
    ensures Served(r, host.attempts, parse)
    ensures r.Failed? ==> GaveUp(host.attempts, ladder, parse)
  {
    var outcome, visited := refusal, {first};
    while outcome.Refused?
      invariant Walk(host.attempts, visited, first, ladder, parse)
      invariant outcome == host.attempts[|host.attempts| - 1].outcome && outcome != Started
      decreases 1 + |Repos(ladder, parse)| - |host.attempts|
    {
      var m, ref := NextRef(host, outcome.report, visited, first, ladder, parse);
      if ref.None? {
        WalkOutline(host.attempts, visited, first, ladder, parse);
        return Failed;
      }
      outcome := host.Start(ref);
      visited := visited + {ref.value};
      WalkOutline(host.attempts, visited, first, ladder, parse);
      if outcome == Started {
        return Running(Some(m.value.ref));
      }
    }
    WalkOutline(host.attempts, visited, first, ladder, parse);
    r := Failed;
  }

  lemma NothingNew(attempts: seq<Attempt>, visited: set<string>, first: string, ladder: seq<Catalog.Model>,
                   parse: Parse, m: Catalog.Model)
    requires Walk(attempts, visited, first, ladder, parse)
    requires attempts[|attempts| - 1].outcome.Refused? && Picks(attempts[|attempts| - 1].outcome.report, m, ladder)
    requires parse(m.ref).None? || parse(m.ref).value in visited
    ensures GaveUp(attempts, ladder, parse)
  {
    assert Exhausted(attempts, parse(m.ref));
  }

  method NextPick(report: Catalog.Refusal, ladder: seq<Catalog.Model>) returns (m: Option<Catalog.Model>)
    ensures m.None? ==> NothingFits(report, ladder)
    ensures m.Some? ==> Picks(report, m.value, ladder)
  {
    var pick := Catalog.AutoPick(report, ladder, Fit.DEFAULT);
    m := if pick.None? then None else Some(pick.value.model);
  }

  lemma WalkOutline(attempts: seq<Attempt>, visited: set<string>, first: string, ladder: seq<Catalog.Model>,
                    parse: Parse)
    requires Walk(attempts, visited, first, ladder, parse)
    ensures Outline(attempts, Some(first), true, ladder, parse)
    ensures |attempts| == |visited|
  {
    Bounded(attempts, visited, first, ladder, parse);
  }

  ghost predicate HasRepo(attempts: seq<Attempt>, repo: string) {
    exists i :: 0 <= i < |attempts| && attempts[i].repo == Some(repo)
  }

  // The repositories started are those visited, each once.
  ghost predicate Walk(attempts: seq<Attempt>, visited: set<string>, first: string, ladder: seq<Catalog.Model>,
                       parse: Parse)
  {
    && attempts != [] && attempts[0].repo == Some(first)
    && NoneTwice(attempts) && EachPicked(attempts, ladder, parse)
    && |attempts| == |visited| && visited <= Repos(ladder, parse) + {first}
    && (forall i :: 0 <= i < |attempts| ==> attempts[i].repo.Some? && attempts[i].repo.value in visited)
    && forall v :: v in visited ==> HasRepo(attempts, v)
  }

  lemma Begins(attempts: seq<Attempt>, first: string, ladder: seq<Catalog.Model>, parse: Parse)
    requires |attempts| == 1 && attempts[0].repo == Some(first)
    ensures Walk(attempts, {first}, first, ladder, parse)
  {
  }

  lemma PickedMore(attempts: seq<Attempt>, more: seq<Attempt>, ladder: seq<Catalog.Model>, parse: Parse,
                   m: Catalog.Model)
    requires EachPicked(attempts, ladder, parse) && |more| == |attempts| + 1 && attempts <= more
    requires PickedAt(more, |attempts|, m, ladder, parse)
    ensures EachPicked(more, ladder, parse)
  {
    forall i: nat | 0 < i < |more|
      ensures Picked(more, i, ladder, parse)
    {
      if i < |attempts| {
        assert Picked(attempts, i, ladder, parse);
        var p :| PickedAt(attempts, i, p, ladder, parse);
        assert PickedAt(more, i, p, ladder, parse);
      }
    }
  }

  lemma Goes(attempts: seq<Attempt>, visited: set<string>, first: string, ladder: seq<Catalog.Model>, parse: Parse,
             m: Catalog.Model, outcome: Outcome)
    requires Walk(attempts, visited, first, ladder, parse)
    requires attempts[|attempts| - 1].outcome.Refused? && Picks(attempts[|attempts| - 1].outcome.report, m, ladder)
    requires parse(m.ref).Some? && parse(m.ref).value !in visited
    ensures Walk(attempts + [Attempt(parse(m.ref), outcome)], visited + {parse(m.ref).value}, first, ladder, parse)
  {
    var v := parse(m.ref).value;
    var more := attempts + [Attempt(Some(v), outcome)];
    assert v in Repos(ladder, parse);
    PickedMore(attempts, more, ladder, parse, m);
    forall w | w in visited + {v}
      ensures HasRepo(more, w)
    {
      if w == v {
        assert more[|attempts|].repo == Some(v);
      } else {
        var i :| 0 <= i < |attempts| && attempts[i].repo == Some(w);
        assert more[i] == attempts[i];
      }
    }
  }

  // Why the launch failed: another kind of error, no model that fits, or a pick that
  // was started before or cannot be parsed.
  ghost predicate GaveUp(attempts: seq<Attempt>, ladder: seq<Catalog.Model>, parse: Parse) {
    attempts != [] &&
    var last := attempts[|attempts| - 1].outcome;
    || last.Broken?
    || (last.Refused? && NothingFits(last.report, ladder))
    || (last.Refused? && exists m :: Picks(last.report, m, ladder) && Exhausted(attempts, parse(m.ref)))
  }

  ghost predicate NothingFits(report: Catalog.Refusal, ladder: seq<Catalog.Model>) {
    forall m :: m in ladder && Catalog.Candidate(report, m) ==>
                  !Catalog.Viable(report, m, Catalog.MIN_RECOMMENDED_CONTEXT, Fit.DEFAULT)
  }

  ghost predicate Exhausted(attempts: seq<Attempt>, repo: Option<string>) {
    repo.None? || HasRepo(attempts, repo.value)
  }

  // ---------- whether the walk goes down the ladder ----------

  // The refusals report no more bytes than the ladder gave the pick they refuse.
  ghost predicate ReportsWithin(attempts: seq<Attempt>, ladder: seq<Catalog.Model>, parse: Parse) {
    forall i: nat, m :: PickedAt(attempts, i, m, ladder, parse) && attempts[i].outcome.Refused? ==>
                     attempts[i].outcome.report.model <= m.bytes
  }

  // A pick is below a size exactly if no viable candidate of its class is that large.
  lemma PickBelow(report: Catalog.Refusal, m: Catalog.Model, ladder: seq<Catalog.Model>, size: nat)
    requires Picks(report, m, ladder)
    ensures m.bytes < size <==>
            !exists x :: x in ladder && x.code == m.code && x.bytes >= size && Catalog.Candidate(report, x) &&
                         Catalog.Viable(report, x, Catalog.MIN_RECOMMENDED_CONTEXT, Fit.DEFAULT)
  {
  }

  // What was picked for every start but the first.
  ghost predicate PicksOf(attempts: seq<Attempt>, picks: seq<Catalog.Model>, ladder: seq<Catalog.Model>, parse: Parse) {
    |picks| == |attempts| && forall i: nat :: 0 < i < |attempts| ==> PickedAt(attempts, i, picks[i], ladder, parse)
  }

  lemma NextIsSmaller(attempts: seq<Attempt>, ladder: seq<Catalog.Model>, parse: Parse, i: nat, m: Catalog.Model,
                      m': Catalog.Model)
    requires ReportsWithin(attempts, ladder, parse)
    requires PickedAt(attempts, i, m, ladder, parse) && PickedAt(attempts, i + 1, m', ladder, parse)
    ensures m'.bytes < m.bytes
  {
    assert Catalog.Candidate(attempts[i].outcome.report, m');
  }

  lemma {:induction false} Falls(picks: seq<Catalog.Model>, i: nat, j: nat)
    requires 0 < i < j < |picks| && forall k: nat :: 0 < k < |picks| - 1 ==> picks[k + 1].bytes < picks[k].bytes
    ensures picks[j].bytes < picks[i].bytes
  {
    assert picks[j - 1 + 1].bytes < picks[j - 1].bytes;
    if i + 1 < j {
      Falls(picks, i, j - 1);
    }
  }

  // If they do, each pick is smaller than all those before it.
  lemma PicksGoDown(attempts: seq<Attempt>, picks: seq<Catalog.Model>, ladder: seq<Catalog.Model>, parse: Parse)
    requires PicksOf(attempts, picks, ladder, parse) && ReportsWithin(attempts, ladder, parse)
    ensures forall i: nat, j: nat :: 0 < i < j < |picks| ==> picks[j].bytes < picks[i].bytes
  {
    forall k: nat | 0 < k < |picks| - 1
      ensures picks[k + 1].bytes < picks[k].bytes
    {
      NextIsSmaller(attempts, ladder, parse, k, picks[k], picks[k + 1]);
    }
    forall i: nat, j: nat | 0 < i < j < |picks|
      ensures picks[j].bytes < picks[i].bytes
    {
      Falls(picks, i, j);
    }
  }

  const SMALL := Catalog.Model("small", 2 * Fit.GIB, Catalog.TextModel, false)
  const BIG := Catalog.Model("big", 3 * Fit.GIB, Catalog.TextModel, false)

  function RefusedAt(model: Fit.u64): Outcome {
    Refused(Catalog.Refusal(Fit.Host("linux", "amd64", 64 * Fit.GIB, 48 * Fit.GIB, Fit.GIB), model, 0, 0, 0, Fit.F16))
  }

  lemma SmallPick()
    ensures Picks(RefusedAt(3 * Fit.GIB).report, SMALL, [SMALL, BIG])
  {
    assert Catalog.Viable(RefusedAt(3 * Fit.GIB).report, SMALL, Catalog.MIN_RECOMMENDED_CONTEXT, Fit.DEFAULT);
  }

  lemma BigPick()
    ensures Picks(RefusedAt(4 * Fit.GIB).report, BIG, [SMALL, BIG])
  {
    assert Catalog.Viable(RefusedAt(4 * Fit.GIB).report, BIG, Catalog.MIN_RECOMMENDED_CONTEXT, Fit.DEFAULT);
  }

  // A refusal that reports more than the ladder says: a larger model is picked next.
  lemma PickGoesUp()
    ensures var attempts := [Attempt(Some("given"), RefusedAt(3 * Fit.GIB)),
                             Attempt(Some("small"), RefusedAt(4 * Fit.GIB)),
                             Attempt(Some("big"), Started)];
            var parse: Parse := ref => Some(ref);
            && NoneTwice(attempts) && EachPicked(attempts, [SMALL, BIG], parse)
            && PickedAt(attempts, 1, SMALL, [SMALL, BIG], parse) && PickedAt(attempts, 2, BIG, [SMALL, BIG], parse)
            && SMALL.bytes < BIG.bytes
  {
    var attempts := [Attempt(Some("given"), RefusedAt(3 * Fit.GIB)), Attempt(Some("small"), RefusedAt(4 * Fit.GIB)),
                     Attempt(Some("big"), Started)];
    var parse: Parse := ref => Some(ref);
    var ladder := [SMALL, BIG];
    assert "given"[0] != "small"[0] && "small"[0] != "big"[0] && "given"[0] != "big"[0];
    SmallPick();
    BigPick();
    assert PickedAt(attempts, 1, SMALL, ladder, parse) && PickedAt(attempts, 2, BIG, ladder, parse);
  }

  lemma Bounded(attempts: seq<Attempt>, visited: set<string>, first: string, ladder: seq<Catalog.Model>, parse: Parse)
    requires Walk(attempts, visited, first, ladder, parse)
    ensures |attempts| <= 1 + |Repos(ladder, parse)|
  {
    var repos := Repos(ladder, parse);
    Subset(visited, repos + {first});
    assert |repos + {first}| <= |repos| + 1;
  }

  lemma Subset(a: set<string>, b: set<string>)
    requires a <= b
    ensures |a| <= |b|
  {
    assert b == a + (b - a);
  }
}
