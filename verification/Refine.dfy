/** The bounded refinement loop (internal/refine/loop.go). Generating, judging and
    trimming and lower-casing a tag are the environment's. */
module Refine {
  import opened Prelude
  import opened Sorting
  import Text

  const DEFAULT_MAX_ITERS := 3
  const DEFAULT_MAX_NO_PROGRESS := 2

  datatype Verdict = Verdict(usable: bool, failureModes: seq<string>)

  // A round that generated nothing has no answer and was not judged.
  datatype Round = Round(iter: nat, generated: bool, answer: string, verdict: Verdict)

  datatype StopReason = StopUsable | StopMaxIters | StopNoProgress

  datatype Outcome = Outcome(usable: bool, finalAnswer: string, reason: StopReason, rounds: seq<Round>)

  type Norm = string -> string

  // ---------- the signature of a verdict ----------

  // The normalised tags, empty ones dropped.
  function Tags(modes: seq<string>, norm: Norm): set<string> {
    set i | 0 <= i < |modes| && norm(modes[i]) != "" :: norm(modes[i])
  }

  // Each tag once, where it first occurs.
  function Firsts(modes: seq<string>, norm: Norm): seq<string> {
    if modes == [] then []
    else
      var n := |modes| - 1;
      var before := Firsts(modes[..n], norm);
      if norm(modes[n]) == "" || norm(modes[n]) in before then before else before + [norm(modes[n])]
  }

  function Signature(modes: seq<string>, norm: Norm): string {
    Join(StableSort(Firsts(modes, norm), Text.Leq), "|")
  }

  method SignatureOf(modes: seq<string>, norm: Norm) returns (sig: string)
    ensures sig == Signature(modes, norm)
  {
    if |modes| == 0 {
      return "";
    }
    var seen: set<string> := {};
    var found: seq<string> := [];
    for i := 0 to |modes|
      invariant found == Firsts(modes[..i], norm)
      invariant forall t :: t in seen <==> t in found
    {
      assert modes[..i + 1][..i] == modes[..i];
      var t := norm(modes[i]);
      if t != "" && t !in seen {
        seen := seen + {t};
        found := found + [t];
      }
    }
    assert modes[..|modes|] == modes;
    sig := Join(StableSort(found, Text.Leq), "|");
  }

  lemma {:induction false} FirstsAre(modes: seq<string>, norm: Norm)
    ensures forall t :: t in Firsts(modes, norm) <==> t in Tags(modes, norm)
    ensures forall i, j :: 0 <= i < j < |Firsts(modes, norm)| ==> Firsts(modes, norm)[i] != Firsts(modes, norm)[j]
  {
    if modes != [] {
      var n := |modes| - 1;
      FirstsAre(modes[..n], norm);
      assert Tags(modes, norm) == Tags(modes[..n], norm) + (if norm(modes[n]) != "" then {norm(modes[n])} else {});
    }
  }

  // The signature joins the sorted listing of the tags.
  lemma SignatureLists(modes: seq<string>, norm: Norm)
    ensures Text.Listing(StableSort(Firsts(modes, norm), Text.Leq), Tags(modes, norm))
  {
    var firsts := Firsts(modes, norm);
    var sorted := StableSort(firsts, Text.Leq);
    FirstsAre(modes, norm);
    Text.LeqIsOrder();
    SortSorts(firsts, Text.Leq);
    Text.SameMembers(firsts, sorted);
    Text.DistinctByCount(firsts, sorted);
  }

  ghost predicate Plain(tags: seq<string>) {
    forall i :: 0 <= i < |tags| ==> tags[i] != "" && '|' !in tags[i]
  }

  lemma FirstBar(a: string, b: string, p: string, q: string)
    requires '|' !in a && '|' !in b && a + "|" + p == b + "|" + q
    ensures a == b && p == q
  {
    var s, t := a + "|" + p, b + "|" + q;
    assert s[|a|] == '|' && t[|b|] == '|';
    assert forall i :: 0 <= i < |a| ==> s[i] == a[i] && s[i] != '|';
    assert forall i :: 0 <= i < |b| ==> t[i] == b[i] && t[i] != '|';
    assert a == s[..|a|] && b == t[..|b|] && p == s[|a| + 1..] && q == t[|b| + 1..];
  }

  lemma BarInside(a: string, p: string)
    ensures '|' in a + "|" + p
  {
    assert (a + "|" + p)[|a|] == '|';
  }

  // Joined tags without bars tell what was joined.
  lemma {:induction false} JoinTells(a: seq<string>, b: seq<string>)
    requires Plain(a) && Plain(b) && Join(a, "|") == Join(b, "|")
    ensures a == b
    decreases |a|
  {
    if |a| > 1 && |b| > 1 {
      FirstBar(a[0], b[0], Join(a[1..], "|"), Join(b[1..], "|"));
      JoinTells(a[1..], b[1..]);
      assert a == [a[0]] + a[1..] && b == [b[0]] + b[1..];
    } else if |a| > 1 {
      OneOrNone(b);
      BarInside(a[0], Join(a[1..], "|"));
    } else if |b| > 1 {
      OneOrNone(a);
      BarInside(b[0], Join(b[1..], "|"));
    }
  }

  lemma OneOrNone(tags: seq<string>)
    requires Plain(tags) && |tags| <= 1
    ensures '|' !in Join(tags, "|")
  {
  }

  ghost predicate NoBars(modes: seq<string>, norm: Norm) {
    forall t :: t in Tags(modes, norm) ==> '|' !in t
  }

  lemma ListingIsPlain(modes: seq<string>, norm: Norm)
    requires NoBars(modes, norm)
    ensures Plain(StableSort(Firsts(modes, norm), Text.Leq))
  {
    SignatureLists(modes, norm);
    var s := StableSort(Firsts(modes, norm), Text.Leq);
    forall i | 0 <= i < |s|
      ensures s[i] != "" && '|' !in s[i]
    {
      assert s[i] in Tags(modes, norm);
    }
  }

  // Without bars, equal signatures mean equal sets of tags.
  lemma SignatureIsTheSet(a: seq<string>, b: seq<string>, norm: Norm)
    requires NoBars(a, norm) && NoBars(b, norm)
    ensures Signature(a, norm) == Signature(b, norm) <==> Tags(a, norm) == Tags(b, norm)
  {
    var s, t := StableSort(Firsts(a, norm), Text.Leq), StableSort(Firsts(b, norm), Text.Leq);
    SignatureLists(a, norm);
    SignatureLists(b, norm);
    if Signature(a, norm) == Signature(b, norm) {
      ListingIsPlain(a, norm);
      ListingIsPlain(b, norm);
      JoinTells(s, t);
      SameListing(s, Tags(a, norm), Tags(b, norm));
    }
    if Tags(a, norm) == Tags(b, norm) {
      Text.OneListing(s, t, Tags(a, norm));
    }
  }

  lemma SameListing(s: seq<string>, a: set<string>, b: set<string>)
    requires Text.Listing(s, a) && Text.Listing(s, b)
    ensures a == b
  {
    forall t
      ensures t in a <==> t in b
    {
      assert t in s <==> t in a;
    }
  }

  lemma EmptySignature(modes: seq<string>, norm: Norm)
    ensures Signature(modes, norm) == "" <==> Tags(modes, norm) == {}
  {
    var s := StableSort(Firsts(modes, norm), Text.Leq);
    SignatureLists(modes, norm);
    if s != [] {
      assert s[0] in Tags(modes, norm);
      if |s| > 1 {
        BarInside(s[0], Join(s[1..], "|"));
      }
    } else {
      assert forall t :: t in Tags(modes, norm) ==> t in s;
    }
  }

  lemma OneFirst(t: string, norm: Norm)
    requires norm(t) == t != ""
    ensures Firsts([t], norm) == [t] && Signature([t], norm) == t
  {
    assert [t][..0] == [];
    SortedStays([t], Text.Leq);
  }

  lemma TwoFirsts(t: string, u: string, norm: Norm)
    requires norm(t) == t != "" && norm(u) == u != "" && t != u && Text.Leq(t, u)
    ensures Firsts([t, u], norm) == [t, u] && Signature([t, u], norm) == t + "|" + u
  {
    OneFirst(t, norm);
    var two := [t, u];
    assert two[..1] == [t] && [t] + [u] == two && two[1..] == [u];
    assert Firsts(two, norm) == two;
    SortedStays(two, Text.Leq);
    assert Join(two, "|") == t + "|" + Join(two[1..], "|") && Join([u], "|") == u;
  }

  lemma TagsDiffer(norm: Norm, t: string, u: string)
    requires norm(t) == t && norm(u) == u && 0 < |t| && 0 < |u|
    ensures Tags([t + "|" + u], norm) != Tags([t, u], norm) || norm(t + "|" + u) != t + "|" + u
  {
    var one, two: seq<string> := [t + "|" + u], [t, u];
    if norm(one[0]) == one[0] {
      assert one[0] in Tags(one, norm);
      assert |one[0]| > |two[0]| && |one[0]| > |two[1]|;
      assert one[0] !in Tags(two, norm);
    }
  }

  // With a bar in a tag different sets can share a signature.
  lemma BarsConfuse()
    ensures var norm: Norm := t => t;
            Signature(["a|b"], norm) == Signature(["a", "b"], norm) && Tags(["a|b"], norm) != Tags(["a", "b"], norm)
  {
    var norm: Norm := t => t;
    assert "a" + "|" + "b" == "a|b";
    OneFirst("a|b", norm);
    TwoFirsts("a", "b", norm);
    TagsDiffer(norm, "a", "b");
  }

  // ---------- what a run's rounds amount to ----------

  function Judged(rounds: seq<Round>): seq<Round> {
    if rounds == [] then []
    else Judged(rounds[..|rounds| - 1]) + (if rounds[|rounds| - 1].generated then [rounds[|rounds| - 1]] else [])
  }

  type Sign = seq<string> -> string

  function SignWith(norm: Norm): Sign {
    (modes: seq<string>) => Signature(modes, norm)
  }

  // The signatures of the judged rounds.
  function Sigs(judged: seq<Round>, sign: Sign): (r: seq<string>)
    ensures |r| == |judged|
  {
    if judged == [] then []
    else Sigs(judged[..|judged| - 1], sign) + [sign(judged[|judged| - 1].verdict.failureModes)]
  }

  // The last m + 1 signatures are one and the same, and not empty.
  ghost predicate Stagnant(sigs: seq<string>, m: nat) {
    && |sigs| > m
    && sigs[|sigs| - 1] != ""
    && forall i :: |sigs| - 1 - m <= i < |sigs| ==> sigs[i] == sigs[|sigs| - 1]
  }

  ghost predicate NeverStagnant(sigs: seq<string>, m: nat) {
    forall n :: 0 <= n <= |sigs| ==> !Stagnant(sigs[..n], m)
  }

  // How often, up to now, the last signature has come again.
  function Streak(sigs: seq<string>): nat {
    var n := |sigs|;
    if n < 2 || sigs[n - 1] == "" || sigs[n - 1] != sigs[n - 2] then 0 else 1 + Streak(sigs[..n - 1])
  }

  lemma {:induction false} StreakMeans(sigs: seq<string>, m: nat)
    requires m >= 1
    ensures Streak(sigs) >= m <==> Stagnant(sigs, m)
  {
    var n := |sigs|;
    if n >= 2 && sigs[n - 1] != "" && sigs[n - 1] == sigs[n - 2] {
      if m > 1 {
        StreakMeans(sigs[..n - 1], m - 1);
        assert forall i :: 0 <= i < n - 1 ==> sigs[..n - 1][i] == sigs[i];
      }
    } else if n > m {
      assert n - 1 - m <= n - 2;
    }
  }

  // The earliest of the judged rounds with the fewest failure modes.
  ghost predicate Best(judged: seq<Round>, k: int) {
    && 0 <= k < |judged|
    && (forall i :: 0 <= i < |judged| ==> |judged[k].verdict.failureModes| <= |judged[i].verdict.failureModes|)
    && forall i :: 0 <= i < k ==> |judged[k].verdict.failureModes| < |judged[i].verdict.failureModes|
  }

  ghost predicate BestAnswer(judged: seq<Round>, answer: string) {
    exists k :: Best(judged, k) && judged[k].answer == answer
  }

  lemma BestMore(judged: seq<Round>, r: Round, k: int)
    requires Best(judged, k)
    ensures Best(judged + [r], if |r.verdict.failureModes| < |judged[k].verdict.failureModes| then |judged| else k)
  {
  }

  lemma JudgedMore(rounds: seq<Round>, r: Round)
    ensures Judged(rounds + [r]) == if r.generated then Judged(rounds) + [r] else Judged(rounds)
  {
    assert (rounds + [r])[..|rounds|] == rounds;
  }

  lemma SigsMore(judged: seq<Round>, r: Round, sign: Sign)
    ensures Sigs(judged + [r], sign) == Sigs(judged, sign) + [sign(r.verdict.failureModes)]
  {
    assert (judged + [r])[..|judged|] == judged;
  }

  lemma NeverMore(sigs: seq<string>, sig: string, m: nat)
    requires NeverStagnant(sigs, m) && !Stagnant(sigs + [sig], m)
    ensures NeverStagnant(sigs + [sig], m)
  {
    forall n | 0 <= n <= |sigs| + 1
      ensures !Stagnant((sigs + [sig])[..n], m)
    {
      if n <= |sigs| {
        assert (sigs + [sig])[..n] == sigs[..n];
      } else {
        assert (sigs + [sig])[..n] == sigs + [sig];
      }
    }
  }

  // One more signature.
  lemma StreakMore(sigs: seq<string>, sig: string, m: nat)
    requires m >= 1 && NeverStagnant(sigs, m)
    ensures Streak(sigs + [sig]) == if sigs != [] && sig != "" && sig == sigs[|sigs| - 1] then Streak(sigs) + 1 else 0
    ensures Streak(sigs + [sig]) >= m <==> Stagnant(sigs + [sig], m)
    ensures Streak(sigs + [sig]) < m ==> NeverStagnant(sigs + [sig], m)
  {
    assert (sigs + [sig])[..|sigs|] == sigs;
    StreakMeans(sigs + [sig], m);
    if !Stagnant(sigs + [sig], m) {
      NeverMore(sigs, sig, m);
    }
  }

  // Numbered in order.
  ghost predicate Ledger(rounds: seq<Round>) {
    forall i :: 0 <= i < |rounds| ==> rounds[i].iter == i + 1
  }

  ghost predicate NoneUsable(rounds: seq<Round>) {
    forall i :: 0 <= i < |rounds| ==> !rounds[i].verdict.usable
  }

  // ---------- the loop ----------

  const GENERATION_ERROR := Verdict(false, ["generation-error"])
  const JUDGE_ERROR := Verdict(false, ["judge-error"])

  // Per round and brief, an answer; none if generating fails. The brief is made from the
  // verdict of the last judged round.
  type Generator = (nat, Option<Verdict>) -> Option<string>

  // Per round and answer, a verdict; none if the judge cannot be reached.
  type Judge = (nat, string) -> Option<Verdict>

  // A judge that cannot be reached passes nothing.
  function FailClosed(verdict: Option<Verdict>): Verdict {
    if verdict.Some? then verdict.value else JUDGE_ERROR
  }

  function Brief(rounds: seq<Round>): Option<Verdict> {
    var judged := Judged(rounds);
    if judged == [] then None else Some(judged[|judged| - 1].verdict)
  }

  // The round that generator and judge make of what went before.
  function RoundAfter(rounds: seq<Round>, gen: Generator, judge: Judge): Round {
    var n := |rounds|;
    match gen(n, Brief(rounds))
    case None => Round(n + 1, false, "", GENERATION_ERROR)
    case Some(answer) => Round(n + 1, true, answer, FailClosed(judge(n, answer)))
  }

  // Each round is the one that generator and judge make of those before it.
  ghost predicate Follows(rounds: seq<Round>, gen: Generator, judge: Judge) {
    forall i :: 0 <= i < |rounds| ==> rounds[i] == RoundAfter(rounds[..i], gen, judge)
  }

  // b is the verdict of the last round before i that has an answer, if there is one.
  ghost predicate LastVerdict(rounds: seq<Round>, i: nat, b: Option<Verdict>)
    requires i <= |rounds|
  {
    if b.None? then forall k :: 0 <= k < i ==> !rounds[k].generated
    else
      exists k :: 0 <= k < i && rounds[k].generated && b == Some(rounds[k].verdict) &&
                  forall l :: k < l < i ==> !rounds[l].generated
  }

  // Round i spelled out: what the generator gives for that verdict, and what the judge says of
  // it. An answer that is missing or cannot be judged is not usable.
  ghost predicate MadeBy(rounds: seq<Round>, i: nat, gen: Generator, judge: Judge)
    requires i < |rounds|
  {
    exists b :: LastVerdict(rounds, i, b) &&
      var r, answer := rounds[i], gen(i, b);
      && r.iter == i + 1 && (r.generated <==> answer.Some?)
      && (answer.None? ==> r.answer == "" && r.verdict == Verdict(false, ["generation-error"]))
      && (answer.Some? ==>
            var verdict := judge(i, answer.value);
            && r.answer == answer.value
            && r.verdict == if verdict.Some? then verdict.value else Verdict(false, ["judge-error"]))
  }

  lemma {:induction false} BriefMeans(rounds: seq<Round>, i: nat)
    requires i <= |rounds|
    ensures LastVerdict(rounds, i, Brief(rounds[..i]))
  {
    if i > 0 {
      BriefMeans(rounds, i - 1);
      assert rounds[..i] == rounds[..i - 1] + [rounds[i - 1]];
      BriefMore(rounds[..i - 1], rounds[i - 1]);
    }
  }

  lemma RoundsMade(rounds: seq<Round>, gen: Generator, judge: Judge)
    requires Follows(rounds, gen, judge)
    ensures forall i :: 0 <= i < |rounds| ==> MadeBy(rounds, i, gen, judge)
  {
    forall i | 0 <= i < |rounds|
      ensures MadeBy(rounds, i, gen, judge)
    {
      BriefMeans(rounds, i);
      assert rounds[i] == RoundAfter(rounds[..i], gen, judge);
    }
  }

  lemma BriefMore(rounds: seq<Round>, r: Round)
    ensures Brief(rounds + [r]) == if r.generated then Some(r.verdict) else Brief(rounds)
  {
    JudgedMore(rounds, r);
  }

  // The loop's brief fits its rounds, and they are what generator and judge make.
  ghost predicate Kept(rounds: seq<Round>, brief: Option<Verdict>, gen: Generator, judge: Judge) {
    && Follows(rounds, gen, judge) && brief == Brief(rounds)
    && (rounds != [] ==> gen(0, None).Some?)
  }

  lemma FollowsMore(rounds: seq<Round>, gen: Generator, judge: Judge)
    requires Follows(rounds, gen, judge)
    ensures Follows(rounds + [RoundAfter(rounds, gen, judge)], gen, judge)
  {
    var more := rounds + [RoundAfter(rounds, gen, judge)];
    forall i | 0 <= i < |more|
      ensures more[i] == RoundAfter(more[..i], gen, judge)
    {
      assert more[..i] == rounds[..i];
    }
    assert rounds[..|rounds|] == rounds;
  }

  lemma KeptFailing(rounds: seq<Round>, brief: Option<Verdict>, gen: Generator, judge: Judge)
    requires Kept(rounds, brief, gen, judge) && rounds != [] && gen(|rounds|, brief).None?
    ensures Kept(rounds + [Round(|rounds| + 1, false, "", GENERATION_ERROR)], brief, gen, judge)
  {
    FollowsMore(rounds, gen, judge);
    BriefMore(rounds, RoundAfter(rounds, gen, judge));
  }

  lemma KeptJudging(rounds: seq<Round>, brief: Option<Verdict>, gen: Generator, judge: Judge)
    requires Kept(rounds, brief, gen, judge) && gen(|rounds|, brief).Some?
    ensures var answer := gen(|rounds|, brief).value;
            var verdict := FailClosed(judge(|rounds|, answer));
            Kept(rounds + [Round(|rounds| + 1, true, answer, verdict)], Some(verdict), gen, judge)
  {
    FollowsMore(rounds, gen, judge);
    BriefMore(rounds, RoundAfter(rounds, gen, judge));
  }

  // The variables of the loop, as functions of the judged rounds.
  datatype State = State(finalAnswer: string, prevSignature: string, noProgress: nat, bestSet: bool, bestModes: nat)

  ghost predicate TracksBest(judged: seq<Round>, st: State) {
    && (st.bestSet <==> judged != [])
    && (judged != [] ==>
          exists k :: Best(judged, k) && judged[k].answer == st.finalAnswer &&
                      |judged[k].verdict.failureModes| == st.bestModes)
  }

  ghost predicate TracksProgress(sigs: seq<string>, st: State, m: nat) {
    && NeverStagnant(sigs, m) && st.noProgress == Streak(sigs)
    && st.prevSignature == if sigs == [] then "" else sigs[|sigs| - 1]
  }

  // One judged, unusable round: the best attempt, and whether anything progresses.
  method Consider(round: Round, st: State, m: nat, norm: Norm, ghost sign: Sign, ghost judged: seq<Round>)
    returns (stop: bool, st': State)
    requires sign == SignWith(norm) && m >= 1 && TracksBest(judged, st) && TracksProgress(Sigs(judged, sign), st, m)
    ensures TracksBest(judged + [round], st')
    ensures stop <==> Stagnant(Sigs(judged + [round], sign), m)
    ensures !stop ==> TracksProgress(Sigs(judged + [round], sign), st', m)
  {
    st' := st;
    if !st.bestSet || |round.verdict.failureModes| < st.bestModes {
      st' := st'.(finalAnswer := round.answer, bestModes := |round.verdict.failureModes|, bestSet := true);
    }
    BestStays(round, st, st', judged);
    var sig := SignatureOf(round.verdict.failureModes, norm);
    assert sig == sign(round.verdict.failureModes);
    SigsMore(judged, round, sign);
    StreakMore(Sigs(judged, sign), sig, m);
    var noProgress := if sig != "" && sig == st.prevSignature then st.noProgress + 1 else 0;
    stop := noProgress >= m;
    st' := st'.(prevSignature := sig, noProgress := noProgress);
  }

  lemma BestStays(r: Round, st: State, st': State, judged: seq<Round>)
    requires TracksBest(judged, st)
    requires st' == if !st.bestSet || |r.verdict.failureModes| < st.bestModes
                    then st.(finalAnswer := r.answer, bestModes := |r.verdict.failureModes|, bestSet := true) else st
    ensures TracksBest(judged + [r], st')
  {
    var more := judged + [r];
    assert more[|judged|] == r;
    if judged == [] {
      assert Best(more, 0);
    } else {
      var k :| Best(judged, k) && judged[k].answer == st.finalAnswer &&
          |judged[k].verdict.failureModes| == st.bestModes;
      BestMore(judged, r, k);
      assert more[k] == judged[k];
    }
  }

  // The rounds so far, none of them usable, and the state they leave.
  ghost predicate Going(rounds: seq<Round>, st: State, m: nat, sign: Sign) {
    && Ledger(rounds) && NoneUsable(rounds) && (rounds != [] ==> rounds[0].generated && st.bestSet)
    && TracksBest(Judged(rounds), st) && TracksProgress(Sigs(Judged(rounds), sign), st, m)
  }

  // A round whose generation failed.
  lemma GoesOn(rounds: seq<Round>, st: State, m: nat, sign: Sign)
    requires Going(rounds, st, m, sign) && rounds != []
    ensures Going(rounds + [Round(|rounds| + 1, false, "", GENERATION_ERROR)], st, m, sign)
  {
    JudgedMore(rounds, Round(|rounds| + 1, false, "", GENERATION_ERROR));
    LedgerMore(rounds, Round(|rounds| + 1, false, "", GENERATION_ERROR));
  }

  // A judged round that is not usable.
  lemma GoesFurther(rounds: seq<Round>, round: Round, st: State, m: nat, sign: Sign)
    requires Ledger(rounds) && NoneUsable(rounds) && (rounds != [] ==> rounds[0].generated)
    requires round.iter == |rounds| + 1 && round.generated && !round.verdict.usable
    requires TracksBest(Judged(rounds) + [round], st) && TracksProgress(Sigs(Judged(rounds) + [round], sign), st, m)
    ensures Going(rounds + [round], st, m, sign)
  {
    JudgedMore(rounds, round);
    LedgerMore(rounds, round);
    SetByNow(Judged(rounds) + [round], st);
  }

  lemma SetByNow(judged: seq<Round>, st: State)
    requires TracksBest(judged, st) && judged != []
    ensures st.bestSet
  {
  }

  lemma LedgerMore(rounds: seq<Round>, round: Round)
    requires Ledger(rounds) && NoneUsable(rounds) && round.iter == |rounds| + 1 && !round.verdict.usable
    ensures Ledger(rounds + [round]) && NoneUsable(rounds + [round])
  {
  }

  ghost predicate Finished(res: Outcome, iters: nat, m: nat, sign: Sign) {
    && |res.rounds| <= iters && Ledger(res.rounds) && res.rounds != [] && res.rounds[0].generated
    && Ended(res, iters, m, sign)
  }

  lemma HasBest(judged: seq<Round>, st: State)
    requires judged != [] && TracksBest(judged, st)
    ensures BestAnswer(judged, st.finalAnswer)
  {
  }

  // One turn of the loop that generated an answer.
  method JudgeRound(judge: Judge, answer: string, rounds: seq<Round>, st: State, ghost iters: nat, m: nat, norm: Norm,
                    ghost sign: Sign)
    returns (res: Option<Outcome>, rounds': seq<Round>, st': State)
    requires sign == SignWith(norm) && Going(rounds, st, m, sign) && |rounds| < iters && m >= 1
    ensures rounds' == rounds + [Round(|rounds| + 1, true, answer, FailClosed(judge(|rounds|, answer)))]
    ensures res.Some? ==> Finished(res.value, iters, m, sign) && res.value.rounds == rounds'
    ensures res.None? ==> Going(rounds', st', m, sign)
  {
    var verdict := FailClosed(judge(|rounds|, answer));
    var round := Round(|rounds| + 1, true, answer, verdict);
    rounds', st', res := rounds + [round], st, None;
    if verdict.usable {
      res := Some(Outcome(true, answer, StopUsable, rounds'));
      FinishedUsable(res.value, rounds, round, st, iters, m, sign);
    } else {
      var stop;
      stop, st' := Consider(round, st, m, norm, sign, Judged(rounds));
      if stop {
        res := Some(Outcome(false, st'.finalAnswer, StopNoProgress, rounds'));
        FinishedStagnant(res.value, rounds, round, st, st', iters, m, sign);
      } else {
        GoesFurther(rounds, round, st', m, sign);
      }
    }
  }

  lemma GoingMeans(rounds: seq<Round>, st: State, m: nat, sign: Sign)
    requires Going(rounds, st, m, sign)
    ensures NoneUsable(rounds) && NeverStagnant(Sigs(Judged(rounds), sign), m)
  {
  }

  lemma LastRound(rounds: seq<Round>, round: Round, st: State, m: nat, sign: Sign)
    requires Going(rounds, st, m, sign) && round.iter == |rounds| + 1 && round.generated
    ensures Ledger(rounds + [round]) && (rounds + [round])[0].generated
  {
  }

  lemma FinishedUsable(res: Outcome, rounds: seq<Round>, round: Round, st: State, iters: nat, m: nat, sign: Sign)
    requires Going(rounds, st, m, sign) && |rounds| < iters && round.iter == |rounds| + 1
    requires round.generated && round.verdict.usable && res == Outcome(true, round.answer, StopUsable, rounds + [round])
    ensures Finished(res, iters, m, sign)
  {
    GoingMeans(rounds, st, m, sign);
    LastRound(rounds, round, st, m, sign);
    EndsUsable(res, rounds, round, iters, m, sign);
  }

  lemma FinishedStagnant(res: Outcome, rounds: seq<Round>, round: Round, st: State, st': State, iters: nat, m: nat,
                         sign: Sign)
    requires Going(rounds, st, m, sign) && |rounds| < iters && round.iter == |rounds| + 1
    requires round.generated && !round.verdict.usable &&
             res == Outcome(false, st'.finalAnswer, StopNoProgress, rounds + [round])
    requires TracksBest(Judged(rounds) + [round], st') && Stagnant(Sigs(Judged(rounds) + [round], sign), m)
    ensures Finished(res, iters, m, sign)
  {
    HasBest(Judged(rounds) + [round], st');
    GoingMeans(rounds, st, m, sign);
    LastRound(rounds, round, st, m, sign);
    EndsStagnant(res, rounds, round, iters, m, sign);
  }

  lemma FinishedExhausted(res: Outcome, st: State, iters: nat, m: nat, sign: Sign)
    requires Going(res.rounds, st, m, sign) && |res.rounds| == iters && iters > 0
    requires res == Outcome(false, st.finalAnswer, StopMaxIters, res.rounds)
    ensures Finished(res, iters, m, sign)
  {
    EndsExhausted(res, st, iters, m, sign);
  }

  // One turn of the loop.
  method PlayRound(gen: Generator, judge: Judge, rounds: seq<Round>, st: State, brief: Option<Verdict>,
                   ghost iters: nat, m: nat, norm: Norm, ghost sign: Sign)
    returns (failed: bool, done: Option<Outcome>, rounds': seq<Round>, st': State, brief': Option<Verdict>)
    requires sign == SignWith(norm) && Going(rounds, st, m, sign) && |rounds| < iters && m >= 1
    requires Kept(rounds, brief, gen, judge)
    ensures failed ==> rounds' == rounds == [] && gen(0, None).None?
    ensures !failed ==> |rounds'| == |rounds| + 1 && Kept(rounds', brief', gen, judge)
    ensures !failed && done.None? ==> Going(rounds', st', m, sign)
    ensures !failed && done.Some? ==> Finished(done.value, iters, m, sign) && done.value.rounds == rounds'
  {
    failed, done, rounds', st', brief' := false, None, rounds, st, brief;
    var answer := gen(|rounds|, brief);
    if answer.None? {
      if !st.bestSet {
        failed := true;
        return;
      }
      GoesOn(rounds, st, m, sign);
      KeptFailing(rounds, brief, gen, judge);
      rounds' := rounds + [Round(|rounds| + 1, false, "", GENERATION_ERROR)];
    } else {
      KeptJudging(rounds, brief, gen, judge);
      done, rounds', st' := JudgeRound(judge, answer.value, rounds, st, iters, m, norm, sign);
      brief' := Some(rounds'[|rounds|].verdict);
    }
  }

  // The loop.
  method PlayRounds(gen: Generator, judge: Judge, iters: nat, m: nat, norm: Norm) returns (res: Outcome, failed: bool)
    requires iters >= 1 && m >= 1
    ensures failed <==> gen(0, None).None?
    ensures failed ==> res.rounds == []
    ensures Follows(res.rounds, gen, judge)
    ensures !failed ==> Finished(res, iters, m, SignWith(norm))
  {
    ghost var sign := SignWith(norm);
    var rounds: seq<Round> := [];
    var st := State("", "", 0, false, 0);
    var brief: Option<Verdict> := None;
    failed := false;
    for i := 1 to iters + 1
      invariant |rounds| == i - 1 && Going(rounds, st, m, sign)
      invariant Kept(rounds, brief, gen, judge)
    {
      var done;
      failed, done, rounds, st, brief := PlayRound(gen, judge, rounds, st, brief, iters, m, norm, sign);
      if failed {
        return Outcome(false, st.finalAnswer, StopMaxIters, rounds), true;
      }
      if done.Some? {
        return done.value, false;
      }
    }
    res := Outcome(false, st.finalAnswer, StopMaxIters, rounds);
    FinishedExhausted(res, st, iters, m, sign);
  }

  // Runs until an answer is usable, nothing progresses or the rounds are used up.
  // It fails exactly if the first round generates nothing.
  method Run(gen: Generator, judge: Judge, givenIters: int, givenProgress: int, norm: Norm)
    returns (res: Outcome, failed: bool)
    ensures failed <==> gen(0, None).None?
    ensures failed ==> res.rounds == []
    ensures forall i :: 0 <= i < |res.rounds| ==> MadeBy(res.rounds, i, gen, judge)
    ensures !failed ==> Finished(res, if givenIters <= 0 then 3 else givenIters,
                                 if givenProgress <= 0 then 2 else givenProgress, SignWith(norm))
    // Only an answer that the judge passed counts as usable.
    ensures !failed && res.usable ==>
              var verdict := judge(|res.rounds| - 1, res.finalAnswer); verdict.Some? && verdict.value.usable
  {
    var iters := if givenIters <= 0 then DEFAULT_MAX_ITERS else givenIters;
    var m := if givenProgress <= 0 then DEFAULT_MAX_NO_PROGRESS else givenProgress;
    res, failed := PlayRounds(gen, judge, iters, m, norm);
    RoundsMade(res.rounds, gen, judge);
    if !failed && res.usable {
      UsableWasJudged(res.rounds, gen, judge);
    }
  }

  lemma UsableWasJudged(rounds: seq<Round>, gen: Generator, judge: Judge)
    requires Follows(rounds, gen, judge) && rounds != [] && rounds[|rounds| - 1].verdict.usable
    ensures var n := |rounds| - 1;
            var verdict := judge(n, rounds[n].answer); verdict.Some? && verdict.value.usable
  {
    var n := |rounds| - 1;
    assert rounds[n] == RoundAfter(rounds[..n], gen, judge);
  }

  // How a run that did not fail ended.
  ghost predicate Ended(res: Outcome, iters: nat, m: nat, sign: Sign)
    requires res.rounds != []
  {
    var sigs := Sigs(Judged(res.rounds), sign);
    && NoneUsable(res.rounds[..|res.rounds| - 1])
    && (res.usable <==> res.rounds[|res.rounds| - 1].verdict.usable)
    && (res.usable <==> res.reason == StopUsable)
    && (res.usable ==> res.finalAnswer == res.rounds[|res.rounds| - 1].answer)
    && (!res.usable ==> BestAnswer(Judged(res.rounds), res.finalAnswer))
    && (!res.usable ==> (res.reason == StopNoProgress <==> Stagnant(sigs, m)))
    && (sigs != [] ==> NeverStagnant(sigs[..|sigs| - 1], m))
    && (res.reason == StopMaxIters ==> |res.rounds| == iters)
  }

  lemma EndsUsable(res: Outcome, before: seq<Round>, round: Round, iters: nat, m: nat, sign: Sign)
    requires NoneUsable(before) && NeverStagnant(Sigs(Judged(before), sign), m)
    requires round.generated && round.verdict.usable && res == Outcome(true, round.answer, StopUsable, before + [round])
    ensures Ended(res, iters, m, sign)
  {
    JudgedMore(before, round);
    SigsMore(Judged(before), round, sign);
    assert (before + [round])[..|before|] == before;
    var sigs := Sigs(Judged(before), sign);
    assert (sigs + [sign(round.verdict.failureModes)])[..|sigs|] == sigs;
  }

  lemma EndsStagnant(res: Outcome, before: seq<Round>, round: Round, iters: nat, m: nat, sign: Sign)
    requires NoneUsable(before) && NeverStagnant(Sigs(Judged(before), sign), m)
    requires round.generated && !round.verdict.usable &&
             res == Outcome(false, res.finalAnswer, StopNoProgress, before + [round])
    requires BestAnswer(Judged(before) + [round], res.finalAnswer) && Stagnant(Sigs(Judged(before) + [round], sign), m)
    ensures Ended(res, iters, m, sign)
  {
    JudgedMore(before, round);
    SigsMore(Judged(before), round, sign);
    assert (before + [round])[..|before|] == before;
    var sigs := Sigs(Judged(before), sign);
    assert (sigs + [sign(round.verdict.failureModes)])[..|sigs|] == sigs;
  }

  lemma EndsExhausted(res: Outcome, st: State, iters: nat, m: nat, sign: Sign)
    requires |res.rounds| == iters && iters > 0 && NoneUsable(res.rounds) && st.bestSet
    requires res == Outcome(false, st.finalAnswer, StopMaxIters, res.rounds)
    requires TracksBest(Judged(res.rounds), st) && TracksProgress(Sigs(Judged(res.rounds), sign), st, m)
    ensures Ended(res, iters, m, sign)
  {
    var sigs := Sigs(Judged(res.rounds), sign);
    assert sigs[..|sigs|] == sigs;
    if sigs != [] {
      var before := sigs[..|sigs| - 1];
      forall n | 0 <= n <= |before|
        ensures !Stagnant(before[..n], m)
      {
        assert before[..n] == sigs[..n];
      }
    }
  }

  // ---------- no progress, in terms of failure modes ----------

  // The last m + 1 judged rounds have one and the same set of tags, and it is not empty.
  ghost predicate SameModes(judged: seq<Round>, m: nat, norm: Norm) {
    && |judged| > m
    && TagsOf(judged[|judged| - 1], norm) != {}
    && forall i :: |judged| - 1 - m <= i < |judged| ==> TagsOf(judged[i], norm) == TagsOf(judged[|judged| - 1], norm)
  }

  function TagsOf(r: Round, norm: Norm): set<string> {
    Tags(r.verdict.failureModes, norm)
  }

  ghost predicate BarFree(judged: seq<Round>, norm: Norm) {
    forall i :: 0 <= i < |judged| ==> NoBars(judged[i].verdict.failureModes, norm)
  }

  lemma {:induction false} SigAt(judged: seq<Round>, sign: Sign, i: nat)
    requires i < |judged|
    ensures Sigs(judged, sign)[i] == sign(judged[i].verdict.failureModes)
  {
    if i < |judged| - 1 {
      SigAt(judged[..|judged| - 1], sign, i);
    }
  }

  lemma SameSig(judged: seq<Round>, norm: Norm, i: nat, j: nat)
    requires BarFree(judged, norm) && i < |judged| && j < |judged|
    ensures var sigs := Sigs(judged, SignWith(norm));
            && (sigs[i] == sigs[j] <==> TagsOf(judged[i], norm) == TagsOf(judged[j], norm))
            && (sigs[j] == "" <==> TagsOf(judged[j], norm) == {})
  {
    SigAt(judged, SignWith(norm), i);
    SigAt(judged, SignWith(norm), j);
    SignatureIsTheSet(judged[i].verdict.failureModes, judged[j].verdict.failureModes, norm);
    EmptySignature(judged[j].verdict.failureModes, norm);
  }

  lemma StagnantMeans(judged: seq<Round>, m: nat, norm: Norm)
    requires BarFree(judged, norm)
    ensures Stagnant(Sigs(judged, SignWith(norm)), m) <==> SameModes(judged, m, norm)
  {
    forall i | 0 <= i < |judged|
      ensures var sigs := Sigs(judged, SignWith(norm));
              && (sigs[i] == sigs[|judged| - 1] <==> TagsOf(judged[i], norm) == TagsOf(judged[|judged| - 1], norm))
              && (sigs[|judged| - 1] == "" <==> TagsOf(judged[|judged| - 1], norm) == {})
    {
      SameSig(judged, norm, i, |judged| - 1);
    }
  }

  lemma {:induction false} SigsFront(judged: seq<Round>, sign: Sign, n: nat)
    requires n <= |judged|
    ensures Sigs(judged[..n], sign) == Sigs(judged, sign)[..n]
  {
    if n < |judged| {
      SigsFront(judged[..|judged| - 1], sign, n);
      assert judged[..|judged| - 1][..n] == judged[..n];
    } else {
      assert judged[..n] == judged;
    }
  }

  // Without bars a run that is not usable stops for want of progress exactly if the last
  // m + 1 judged rounds fail in the same ways, and it is the first time that they do.
  lemma StopsAtSameModes(res: Outcome, iters: nat, m: nat, norm: Norm)
    requires Finished(res, iters, m, SignWith(norm)) && BarFree(Judged(res.rounds), norm)
    ensures !res.usable ==> (res.reason == StopNoProgress <==> SameModes(Judged(res.rounds), m, norm))
    ensures forall n :: 0 <= n < |Judged(res.rounds)| ==> !SameModes(Judged(res.rounds)[..n], m, norm)
  {
    var judged, sign := Judged(res.rounds), SignWith(norm);
    StagnantMeans(judged, m, norm);
    forall n | 0 <= n < |judged|
      ensures !SameModes(judged[..n], m, norm)
    {
      var before := Sigs(judged, sign)[..|judged| - 1];
      SigsFront(judged, sign, n);
      StagnantMeans(judged[..n], m, norm);
      assert before[..n] == Sigs(judged, sign)[..n];
    }
  }
}
