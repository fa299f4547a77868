/** The agent loop, its session and the in-place compaction of the session
    (internal/agent/agent.go, session.go, stream.go). What the provider, the tools, the
    compactor, retrieval and the sink answer are inputs of the loops. */
module Agent {
  import opened Prelude
  import opened Llm

  class Session {
    var messages: seq<Message>

    constructor ()
      ensures messages == []
    {
      messages := [];
    }

    method Append(m: Message)
      modifies this
      ensures messages == old(messages) + [m]
    {
      messages := messages + [m];
    }

    // A copy: sequences are values.
    method Messages() returns (r: seq<Message>)
      ensures r == messages
    {
      r := messages;
    }

    method Reset()
      modifies this
      ensures messages == []
    {
      messages := [];
    }
  }

  datatype AgentError = ProviderFailed | MaxIterations | SinkFailed

  // What a request to the provider brings: an error, or text and tool calls.
  datatype Reply = NoReply | Says(content: string, calls: seq<ToolCall>)

  // The reply of each round.
  type Replies = nat -> Reply

  // Whether the sink takes the event of a result, by round and call.
  type Takes = (nat, nat) -> bool

  predicate CallsTools(r: Reply) {
    r.Says? && r.calls != []
  }

  // The first round that calls no tool or fails; the budget if there is none.
  ghost predicate StopsAt(replies: Replies, budget: nat, at: nat) {
    at <= budget && (forall j :: 0 <= j < at ==> CallsTools(replies(j))) && (at < budget ==> !CallsTools(replies(at)))
  }

  // One of the calls queries the knowledge base.
  predicate Retrieves(calls: seq<ToolCall>) {
    exists k :: 0 <= k < |calls| && (calls[k].name == "rag_search" || calls[k].name == "graph_expand")
  }

  function RetrievedBefore(replies: Replies, n: nat): bool {
    n > 0 && (RetrievedBefore(replies, n - 1) || (replies(n - 1).Says? && Retrieves(replies(n - 1).calls)))
  }

  lemma {:induction false} RetrievedMeans(replies: Replies, n: nat)
    ensures RetrievedBefore(replies, n) <==>
            exists j, k :: 0 <= j < n && replies(j).Says? && 0 <= k < |replies(j).calls| &&
              (replies(j).calls[k].name == "rag_search" || replies(j).calls[k].name == "graph_expand")
  {
    if n > 0 {
      RetrievedMeans(replies, n - 1);
    }
  }

  // ---------- compaction ----------

  // The compactor reports an error, finds nothing to do, or rewrites the text.
  datatype Compaction = Failed | Unchanged | Rewritten(compacted: string)

  // What the compactor answers in a round: about each message when it looks for oversized
  // ones, and to each call that ignores its trigger, in order.
  datatype Compactor = Compactor(once: nat -> Compaction, forced: nat -> Compaction)

  // What surrounds a round: the system section of its request, what its tools answer, and
  // the compactor.
  datatype Setting = Setting(system: string, outputs: nat -> string, compactor: Compactor)

  type Settings = nat -> Setting

  // compactableMsg
  predicate Compactable(m: Message) {
    match m.role
    case User => true
    case Tool => true
    case Assistant => m.toolCalls == []
    case System => false
  }

  function EstimateTokens(s: string): nat {
    (|s| + 3) / 4
  }

  function TotalTokens(msgs: seq<Message>): nat {
    if msgs == [] then 0 else EstimateTokens(msgs[0].content) + TotalTokens(msgs[1..])
  }

  // The tokens of a conversation are those of its messages together, four characters each.
  lemma {:induction false} TotalIsSum(a: seq<Message>, b: seq<Message>)
    ensures TotalTokens(a + b) == TotalTokens(a) + TotalTokens(b)
    ensures forall m: Message :: TotalTokens([m]) == (|m.content| + 3) / 4
  {
    if a == [] {
      assert a + b == b;
    } else {
      TotalIsSum(a[1..], b);
      assert (a + b)[1..] == a[1..] + b;
    }
    forall m: Message
      ensures TotalTokens([m]) == (|m.content| + 3) / 4
    {
      assert [m][1..] == [];
    }
  }

  // Only texts differ, and none of a system message or of a message with calls.
  ghost predicate CompactedFrom(a: seq<Message>, b: seq<Message>) {
    && SameShape(a, b)
    && forall i :: 0 <= i < |a| && (a[i].role == System || (a[i].role == Assistant && a[i].toolCalls != [])) ==>
         b[i] == a[i]
  }

  lemma CompactedAgain(a: seq<Message>, b: seq<Message>, c: seq<Message>)
    requires CompactedFrom(a, b) && CompactedFrom(b, c)
    ensures CompactedFrom(a, c)
  {
    forall i | 0 <= i < |a|
      ensures c[i] == a[i].(content := c[i].content)
      ensures a[i].role == System || (a[i].role == Assistant && a[i].toolCalls != []) ==> c[i] == a[i]
    {
      assert b[i] == a[i].(content := b[i].content) && c[i] == b[i].(content := c[i].content);
    }
  }

  lemma CompactedThen(a: seq<Message>, b: seq<Message>, more: seq<Message>)
    requires CompactedFrom(a, b)
    ensures CompactedFrom(a + more, b + more)
  {
    forall i | 0 <= i < |a + more|
      ensures (b + more)[i] == (a + more)[i].(content := (b + more)[i].content)
    {
      assert i < |a| ==> b[i] == a[i].(content := b[i].content);
    }
  }

  // A conversation behind a system section, when there is one.
  function Behind(system: string, msgs: seq<Message>): seq<Message> {
    (if system == "" then [] else [Message(System, system, [], [], "", "")]) + msgs
  }

  function WithContent(msgs: seq<Message>, i: nat, content: string): seq<Message>
    requires i < |msgs|
  {
    msgs[i := msgs[i].(content := content)]
  }

  // A call of the compactor that ignores its trigger, about this message.
  datatype Forced = Forced(at: nat, text: string, outcome: Compaction)

  function Outcome(c: Forced): string {
    if c.outcome.Rewritten? then c.outcome.compacted else c.text
  }

  ghost predicate ForcedAt(forced: seq<Forced>, i: nat) {
    exists k :: 0 <= k < |forced| && forced[k].at == i
  }

  // The text came out of such a call, or one left it as it is.
  ghost predicate Exhausted(forced: seq<Forced>, text: string) {
    exists k :: 0 <= k < |forced| &&
      (forced[k].outcome == Rewritten(text) || (forced[k].text == text && !forced[k].outcome.Rewritten?))
  }

  // Within the budget, or out of texts to try: those of user messages, tool messages and
  // answers without calls.
  ghost predicate BudgetTried(msgs: seq<Message>, max: int, forced: seq<Forced>) {
    TotalTokens(msgs) <= max ||
    forall i :: 0 <= i < |msgs| && msgs[i].content != "" ==>
      || msgs[i].role == System || (msgs[i].role == Assistant && msgs[i].toolCalls != [])
      || Exhausted(forced, msgs[i].content)
  }

  // The first pass: each text of a user message, a tool message or an answer without calls
  // that the compactor rewrites is rewritten, and nothing else.
  ghost predicate OncePassed(given: seq<Message>, msgs: seq<Message>, once: nat -> Compaction, n: int) {
    |msgs| == |given| &&
    forall i :: 0 <= i < |given| ==>
      msgs[i] ==
      if i < n && given[i].content != "" && once(i).Rewritten? &&
         (given[i].role == User || given[i].role == Tool || (given[i].role == Assistant && given[i].toolCalls == []))
        then given[i].(content := once(i).compacted) else given[i]
  }

  // One forced call, and where its outcome stands.
  ghost predicate CallMade(given: seq<Message>, msgs: seq<Message>, c: Forced, answer: Compaction)
    requires |given| == |msgs|
  {
    && c.at < |given| && given[c.at].content != "" && c == Forced(c.at, given[c.at].content, answer)
    && (given[c.at].role == User || given[c.at].role == Tool ||
        (given[c.at].role == Assistant && given[c.at].toolCalls == []))
    && msgs[c.at] == given[c.at].(content := Outcome(c))
  }

  // The calls of the budget pass: one a message, the largest text first, and no message
  // changes but by its call.
  ghost predicate CallsMade(given: seq<Message>, msgs: seq<Message>, forced: seq<Forced>, answers: nat -> Compaction) {
    && |given| == |msgs|
    && (forall k :: 0 <= k < |forced| ==> CallMade(given, msgs, forced[k], answers(k)))
    && (forall k, l :: 0 <= k < l < |forced| ==>
          forced[k].at != forced[l].at && (|forced[k].text| + 3) / 4 >= (|forced[l].text| + 3) / 4)
    && (forall i :: 0 <= i < |given| && !ForcedAt(forced, i) ==> msgs[i] == given[i])
  }

  // The budget pass: no call within the budget, none that is not needed, and none too few.
  ghost predicate Fitted(given: seq<Message>, msgs: seq<Message>, forced: seq<Forced>, max: int,
                         answers: nat -> Compaction) {
    && CallsMade(given, msgs, forced, answers)
    && (TotalTokens(given) <= max ==> forced == [])
    && (forced != [] ==> var c := forced[|forced| - 1]; TotalTokens(msgs[c.at := given[c.at]]) > max)
    && (TotalTokens(msgs) > max ==>
          forall i :: 0 <= i < |given| && given[i].content != "" ==>
            || given[i].role == System || (given[i].role == Assistant && given[i].toolCalls != [])
            || ForcedAt(forced, i))
  }

  lemma FittedIsTried(given: seq<Message>, msgs: seq<Message>, forced: seq<Forced>, max: int,
                      answers: nat -> Compaction)
    requires Fitted(given, msgs, forced, max, answers)
    ensures BudgetTried(msgs, max, forced) && CompactedFrom(given, msgs)
  {
    forall i | 0 <= i < |given| && ForcedAt(forced, i)
      ensures Exhausted(forced, msgs[i].content) && msgs[i] == given[i].(content := msgs[i].content)
      ensures given[i].role == User || given[i].role == Tool || (given[i].role == Assistant && given[i].toolCalls == [])
    {
      var k :| 0 <= k < |forced| && forced[k].at == i;
      assert CallMade(given, msgs, forced[k], answers(k));
    }
  }

  lemma OnceIsCompacted(given: seq<Message>, msgs: seq<Message>, once: nat -> Compaction, n: int)
    requires OncePassed(given, msgs, once, n)
    ensures CompactedFrom(given, msgs)
  {
  }

  // No call within the budget, and the last call was needed.
  ghost predicate Needed(given: seq<Message>, msgs: seq<Message>, forced: seq<Forced>, max: int)
    requires |given| == |msgs| && forall k :: 0 <= k < |forced| ==> forced[k].at < |given|
  {
    && (TotalTokens(given) <= max ==> forced == [])
    && (forced != [] ==> var c := forced[|forced| - 1]; TotalTokens(msgs[c.at := given[c.at]]) > max)
  }

  lemma NeededMore(given: seq<Message>, msgs: seq<Message>, forced: seq<Forced>, max: int, c: Forced)
    requires |given| == |msgs| && forall k :: 0 <= k < |forced| ==> forced[k].at < |given|
    requires Needed(given, msgs, forced, max) && TotalTokens(msgs) > max && (forced == [] ==> msgs == given)
    requires c.at < |given| && msgs[c.at] == given[c.at]
    ensures Needed(given, WithContent(msgs, c.at, Outcome(c)), forced + [c], max)
  {
    var next := WithContent(msgs, c.at, Outcome(c));
    assert next[c.at := given[c.at]] == msgs;
    assert (forced + [c])[|forced|] == c;
  }

  // The state of the budget pass.
  ghost predicate Forcing(given: seq<Message>, msgs: seq<Message>, tried: seq<bool>, forced: seq<Forced>,
                          answers: nat -> Compaction) {
    && |tried| == |given| == |msgs|
    && (forall k :: 0 <= k < |forced| ==> CallMade(given, msgs, forced[k], answers(k)) && tried[forced[k].at])
    && (forall k, l :: 0 <= k < l < |forced| ==>
          forced[k].at != forced[l].at && (|forced[k].text| + 3) / 4 >= (|forced[l].text| + 3) / 4)
    && (forall i :: 0 <= i < |given| && !tried[i] ==> msgs[i] == given[i])
    && (forall i {:trigger ForcedAt(forced, i)} :: 0 <= i < |given| && tried[i] ==> ForcedAt(forced, i))
    && (forall k, i :: 0 <= k < |forced| && 0 <= i < |given| && !tried[i] && Compactable(given[i]) ==>
          (|forced[k].text| + 3) / 4 >= (|given[i].content| + 3) / 4)
  }

  lemma ForcingMakesCalls(given: seq<Message>, msgs: seq<Message>, tried: seq<bool>, forced: seq<Forced>,
                          answers: nat -> Compaction)
    requires Forcing(given, msgs, tried, forced, answers)
    ensures CallsMade(given, msgs, forced, answers)
    ensures (forall i :: 0 <= i < |given| && !tried[i] && Compactable(given[i]) ==> given[i].content == "") ==>
              forall i :: 0 <= i < |given| && given[i].content != "" ==>
                || given[i].role == System || (given[i].role == Assistant && given[i].toolCalls != [])
                || ForcedAt(forced, i)
  {
  }

  // One more call of the budget pass, about a largest text that is left.
  lemma ForcingMore(given: seq<Message>, msgs: seq<Message>, tried: seq<bool>, forced: seq<Forced>,
                    answers: nat -> Compaction, i: nat)
    requires Forcing(given, msgs, tried, forced, answers)
    requires i < |given| && !tried[i] && Compactable(given[i]) && given[i].content != ""
    requires forall j :: 0 <= j < |given| && !tried[j] && Compactable(given[j]) ==>
               (|given[j].content| + 3) / 4 <= (|given[i].content| + 3) / 4
    ensures var c := Forced(i, given[i].content, answers(|forced|));
            Forcing(given, WithContent(msgs, i, Outcome(c)), tried[i := true], forced + [c], answers)
  {
    var c := Forced(i, given[i].content, answers(|forced|));
    var next, more := WithContent(msgs, i, Outcome(c)), forced + [c];
    forall k | 0 <= k < |more|
      ensures CallMade(given, next, more[k], answers(k)) && tried[i := true][more[k].at]
    {
      if k < |forced| {
        assert CallMade(given, msgs, forced[k], answers(k)) && tried[forced[k].at];
      }
    }
    forall j | 0 <= j < |given| && tried[i := true][j]
      ensures ForcedAt(more, j)
    {
      if j == i {
        assert more[|forced|].at == j;
      } else {
        assert ForcedAt(forced, j);
        var k :| 0 <= k < |forced| && forced[k].at == j;
        assert more[k].at == j;
      }
    }
  }

  class Loop {
    const maxIters: int
    const maxTotalTokens: int
    const compacting: bool   // a compactor is configured
    const agentic: bool
    const grounded: bool     // retrieval is configured
    // The message lists passed to the provider so far.
    ghost var requests: seq<seq<Message>>
    // The forced compactions of the budget pass last run.
    ghost var forced: seq<Forced>

    constructor (maxIters: int, maxTotalTokens: int, compacting: bool, agentic: bool, grounded: bool)
      ensures this.maxIters == maxIters && requests == []
    {
      this.maxIters := maxIters;
      this.maxTotalTokens := maxTotalTokens;
      this.compacting := compacting;
      this.agentic := agentic;
      this.grounded := grounded;
      requests := [];
      forced := [];
    }

    // The largest message not tried yet that may be rewritten and has text.
    method PickLargest(msgs: seq<Message>, tried: seq<bool>) returns (best: Option<nat>)
      requires |tried| == |msgs|
      ensures best.Some? ==> best.value < |msgs| && Open(msgs, tried, best.value) && msgs[best.value].content != ""
      ensures best.Some? ==> forall i :: 0 <= i < |msgs| && Open(msgs, tried, i) ==>
                EstimateTokens(msgs[i].content) <= EstimateTokens(msgs[best.value].content)
      ensures best.None? ==> forall i :: 0 <= i < |msgs| && Open(msgs, tried, i) ==> msgs[i].content == ""
    {
      best := None;
      var bt := 0;
      for i := 0 to |msgs|
        invariant best.None? ==> bt == 0
        invariant best.Some? ==> best.value < i && Open(msgs, tried, best.value) && bt > 0
        invariant best.Some? ==> bt == EstimateTokens(msgs[best.value].content)
        invariant forall j :: 0 <= j < i && Open(msgs, tried, j) ==> EstimateTokens(msgs[j].content) <= bt
      {
        if tried[i] || !Compactable(msgs[i]) {
          continue;
        }
        var tk := EstimateTokens(msgs[i].content);
        if tk > bt {
          best, bt := Some(i), tk;
        }
      }
    }

    // Messages not tried are as given.
    lemma LeftIsGiven(given: seq<Message>, msgs: seq<Message>, tried: seq<bool>, forced: seq<Forced>,
                      answers: nat -> Compaction)
      requires Forcing(given, msgs, tried, forced, answers)
      ensures forced == [] ==> msgs == given
      ensures forall i :: 0 <= i < |given| && !tried[i] ==>
                msgs[i] == given[i] && (Open(msgs, tried, i) <==> Compactable(given[i]))
    {
      if forced == [] {
        forall i | 0 <= i < |given|
          ensures !tried[i]
        {
          assert !ForcedAt(forced, i);
        }
      }
    }

    static predicate Open(msgs: seq<Message>, tried: seq<bool>, i: nat)
      requires |tried| == |msgs| && i < |msgs|
    {
      !tried[i] && Compactable(msgs[i])
    }

    // Forces the largest text that is left, if there is one.
    method ForceNext(given: seq<Message>, msgs: seq<Message>, tried: seq<bool>, ghost answers: nat -> Compaction,
                     answer: Compaction)
      returns (msgs': seq<Message>, tried': seq<bool>, found: bool)
      requires Forcing(given, msgs, tried, forced, answers) && answer == answers(|forced|)
      requires Needed(given, msgs, forced, maxTotalTokens) && TotalTokens(msgs) > maxTotalTokens
      modifies this`forced
      ensures Forcing(given, msgs', tried', forced, answers) && Needed(given, msgs', forced, maxTotalTokens)
      ensures found ==> Untried(tried') < Untried(tried) && |forced| == |old(forced)| + 1
      ensures !found ==> msgs' == msgs && Fitted(given, msgs, forced, maxTotalTokens, answers)
      ensures !answer.Rewritten? ==> msgs' == msgs
    {
      msgs', tried', found := msgs, tried, false;
      var best := PickLargest(msgs, tried);
      LeftIsGiven(given, msgs, tried, forced, answers);
      ForcingMakesCalls(given, msgs, tried, forced, answers);
      if best.None? {
        return;
      }
      var i := best.value;
      ghost var c := Forced(i, msgs[i].content, answer);
      ForcingMore(given, msgs, tried, forced, answers, i);
      NeededMore(given, msgs, forced, maxTotalTokens, c);
      TryOne(tried, i);
      if answer.Rewritten? {
        msgs' := WithContent(msgs, i, answer.compacted);
      }
      assert msgs' == WithContent(msgs, i, Outcome(c));
      tried', found := tried[i := true], true;
      forced := forced + [c];
    }

    // The budget pass: forces the largest text until the budget is met or none is left.
    method FitBudget(given: seq<Message>, answers: nat -> Compaction) returns (msgs: seq<Message>, changed: bool)
      requires maxTotalTokens > 0
      modifies this`forced
      ensures Fitted(given, msgs, forced, maxTotalTokens, answers)
      ensures !changed ==> msgs == given
    {
      msgs, changed := given, false;
      forced := [];
      var tried := seq(|msgs|, _ => false);
      var n := 0;
      while TotalTokens(msgs) > maxTotalTokens
        invariant Forcing(given, msgs, tried, forced, answers) && n == |forced|
        invariant Needed(given, msgs, forced, maxTotalTokens)
        invariant !changed ==> msgs == given
        decreases Untried(tried)
      {
        var found;
        msgs, tried, found := ForceNext(given, msgs, tried, answers, answers(n));
        if !found {
          return;
        }
        changed := changed || answers(n).Rewritten?;
        n := n + 1;
      }
    }

    // The first pass: each text that may be rewritten, if the compactor finds it oversized.
    method CompactOnce(given: seq<Message>, once: nat -> Compaction) returns (msgs: seq<Message>, changed: bool)
      ensures OncePassed(given, msgs, once, |given|)
      ensures !changed ==> msgs == given
    {
      msgs, changed := given, false;
      for i := 0 to |msgs|
        invariant OncePassed(given, msgs, once, i) && (!changed ==> msgs == given)
      {
        if msgs[i].content == "" || !Compactable(msgs[i]) {
          continue;
        }
        var res := once(i);
        if res.Rewritten? {
          msgs, changed := WithContent(msgs, i, res.compacted), true;
        }
      }
    }

    // compactSession; mid is the conversation after the first pass.
    method CompactSession(session: Session, c: Compactor) returns (ghost mid: seq<Message>)
      modifies this`forced, session
      ensures !compacting ==> session.messages == old(session.messages)
      ensures compacting ==> OncePassed(old(session.messages), mid, c.once, |mid|)
      ensures compacting && maxTotalTokens > 0 ==> Fitted(mid, session.messages, forced, maxTotalTokens, c.forced)
      ensures compacting && maxTotalTokens <= 0 ==> session.messages == mid
      ensures CompactedFrom(old(session.messages), session.messages)
      ensures compacting && maxTotalTokens > 0 ==> BudgetTried(session.messages, maxTotalTokens, forced)
    {
      mid := session.messages;
      if !compacting {
        return;
      }
      var msgs := session.Messages();
      ghost var start := msgs;
      var changed := false;
      msgs, changed := CompactOnce(msgs, c.once);
      mid := msgs;
      OnceIsCompacted(start, mid, c.once, |mid|);
      if maxTotalTokens > 0 {
        var more;
        msgs, more := FitBudget(msgs, c.forced);
        changed := changed || more;
        FittedIsTried(mid, msgs, forced, maxTotalTokens, c.forced);
        CompactedAgain(start, mid, msgs);
      }
      if changed {
        Rewrite(session, msgs);
      }
    }

    method Rewrite(session: Session, msgs: seq<Message>)
      modifies session
      ensures session.messages == msgs
    {
      session.Reset();
      for i := 0 to |msgs|
        invariant session.messages == msgs[..i]
      {
        session.Append(msgs[i]);
      }
      assert msgs[..|msgs|] == msgs;
    }

    // composeFrom: the system section, when there is one, goes first.
    method ComposeFrom(msgs: seq<Message>, system: string) returns (r: seq<Message>)
      ensures Paired(r) <==> Paired(msgs)
      ensures r == (if system == "" then [] else [Message(System, system, [], [], "", "")]) + msgs
    {
      if system == "" {
        return msgs;
      }
      r := [SystemMessage(system)] + msgs;
      PairedPlain(SystemMessage(system));
      PairedAppend([SystemMessage(system)], msgs);
    }

    // Every request so far kept calls and results together.
    ghost predicate RequestsPaired()
      reads this
    {
      forall i :: 0 <= i < |requests| ==> Paired(requests[i])
    }

    method Chat(msgs: seq<Message>, reply: Reply) returns (resp: Option<Message>)
      modifies this`requests
      ensures requests == old(requests) + [msgs]
      ensures resp == if reply.Says? then Some(AssistantMessage(reply.content, reply.calls)) else None
    {
      requests := requests + [msgs];
      resp := if reply.Says? then Some(AssistantMessage(reply.content, reply.calls)) else None;
    }

    // One pass without the ungrounded answer; the session is left alone.
    method ClassicFallback(session: Session, reply: Reply, system: string) returns (answer: Option<string>)
      modifies this`requests
      ensures session.messages == [] ==> requests == old(requests) && answer == None
      ensures session.messages != [] ==>
                requests == old(requests) +
                            [Behind(system, session.messages[..|session.messages| - 1])]
      ensures session.messages != [] ==>
                answer == if reply.Says? && !Blank(reply.content) then Some(reply.content) else None
      ensures old(RequestsPaired()) && session.messages != [] && Paired(session.messages[..|session.messages| - 1]) ==>
                RequestsPaired()
    {
      var msgs := session.Messages();
      if msgs == [] {
        return None;
      }
      var composed := ComposeFrom(msgs[..|msgs| - 1], system);
      var resp := Chat(composed, reply);
      if resp.None? || Blank(resp.value.content) {
        return None;
      }
      return Some(resp.value.content);
    }

    // session.Append of a message without calls.
    method Say(session: Session, m: Message)
      requires m.role != Tool && m.toolCalls == []
      modifies session
      ensures session.messages == old(session.messages) + [m]
      ensures Paired(old(session.messages)) ==> Paired(session.messages)
    {
      session.Append(m);
      PairedPlain(m);
      if Paired(old(session.messages)) {
        PairedAppend(old(session.messages), [m]);
      }
    }

    // The top of both loops: compact, compose, ask. Pairing survives compaction and
    // holds of the request.
    method Ask(session: Session, reply: Reply, setting: Setting) returns (resp: Option<Message>)
      modifies this`requests, this`forced, session
      ensures requests == old(requests) +
                          [Behind(setting.system, session.messages)]
      ensures compacting && maxTotalTokens > 0 ==> BudgetTried(session.messages, maxTotalTokens, forced)
      ensures Becomes(old(session.messages), session.messages)
      ensures Paired(old(session.messages)) ==> Paired(session.messages)
      ensures Paired(old(session.messages)) && old(RequestsPaired()) ==> RequestsPaired()
      ensures resp == if reply.Says? then Some(AssistantMessage(reply.content, reply.calls)) else None
    {
      ghost var was := session.messages;
      ghost var mid := CompactSession(session, setting.compactor);
      ShapeKeepsPairing(was, session.messages);
      var msgs := session.Messages();
      var composed := ComposeFrom(msgs, setting.system);
      resp := Chat(composed, reply);
    }

    // now is said, compacted: only texts that may differ, and without a compactor none.
    ghost predicate Becomes(said: seq<Message>, now: seq<Message>) {
      CompactedFrom(said, now) && (!compacting ==> now == said)
    }

    lemma BecomesThen(said: seq<Message>, now: seq<Message>, more: seq<Message>)
      requires Becomes(said, now)
      ensures Becomes(said + more, now + more)
    {
      CompactedThen(said, now, more);
    }

    lemma BecomesAgain(said: seq<Message>, held: seq<Message>, now: seq<Message>)
      requires Becomes(said, held) && Becomes(held, now)
      ensures Becomes(said, now)
    {
      CompactedAgain(said, held, now);
    }

    // A request is about what was said, compacted, behind the system section of its round.
    ghost predicate Requested(request: seq<Message>, said: seq<Message>, system: string) {
      if system == "" then Becomes(said, request)
      else
        && request != [] && request[0] == Message(System, system, [], [], "", "") && Becomes(said, request[1..])
    }

    // Dispatches the calls of m, the last message, in order and appends the results.
    // In the streaming loop an event follows each result; the first that the sink does
    // not take ends the turn.
    method RunTools(session: Session, m: Message, outputs: nat -> string, takes: nat -> bool)
      returns (refused: Option<nat>)
      requires m.role == Assistant && session.messages != [] && session.messages[|session.messages| - 1] == m
      modifies session
      ensures refused.None? <==> forall k :: 0 <= k < |m.toolCalls| ==> takes(k)
      ensures refused.Some? ==> refused.value < |m.toolCalls| && !takes(refused.value)
      ensures refused.Some? ==> forall k :: 0 <= k < refused.value ==> takes(k)
      ensures session.messages == old(session.messages) +
              Results(m.toolCalls, outputs, if refused.Some? then refused.value + 1 else |m.toolCalls|)
      ensures var before := old(session.messages)[..|old(session.messages)| - 1];
              Paired(before) ==>
                (Paired(session.messages) <==> refused.None? || refused.value + 1 == |m.toolCalls|)
    {
      var calls := m.toolCalls;
      ghost var before := session.messages;
      refused := None;
      for i := 0 to |calls|
        invariant session.messages == before + Results(calls, outputs, i)
        invariant forall k :: 0 <= k < i ==> takes(k)
      {
        session.Append(ResultMessage(calls[i], outputs(i)));
        assert session.messages == before + Results(calls, outputs, i + 1);
        if !takes(i) {
          GroupPairing(before[..|before| - 1], m, Results(calls, outputs, i + 1));
          assert session.messages == before[..|before| - 1] + ([m] + Results(calls, outputs, i + 1));
          return Some(i);
        }
      }
      GroupPairing(before[..|before| - 1], m, Results(calls, outputs, |calls|));
      assert session.messages == before[..|before| - 1] + ([m] + Results(calls, outputs, |calls|));
    }

    function Budget(): nat {
      if maxIters < 0 then 0 else maxIters
    }

    // The answer of a turn that has not retrieved may be replaced by a grounded one.
    predicate Replaces(usedRetrieval: bool, fallback: Reply) {
      agentic && grounded && !usedRetrieval && fallback.Says? && !Blank(fallback.content)
    }

    function Concluded(content: string, usedRetrieval: bool, fallback: Reply, note: string -> string):
      Result<string, AgentError>
    {
      var answer := if Replaces(usedRetrieval, fallback) then fallback.content else content;
      Ok(answer + note(answer))
    }

    // The answer without tool calls m, or a grounded one in its place.
    method Conclude(session: Session, m: Message, usedRetrieval: bool, fallback: Reply, classic: string,
                    note: string -> string)
      returns (r: Result<string, AgentError>)
      requires m.role == Assistant && m.toolCalls == []
      modifies this`requests, session
      ensures session.messages == old(session.messages) + [m]
      // The grounded pass is asked about the conversation without m.
      ensures requests == old(requests) +
              if !agentic || !grounded || usedRetrieval then []
              else [Behind(classic, old(session.messages))]
      ensures old(Paired(session.messages)) && old(RequestsPaired()) ==> Paired(session.messages) && RequestsPaired()
      ensures r == Concluded(m.content, usedRetrieval, fallback, note)
    {
      ghost var base := session.messages;
      Say(session, m);
      assert session.messages[..|session.messages| - 1] == base;
      if agentic && grounded && !usedRetrieval {
        var better := ClassicFallback(session, fallback, classic);
        if better.Some? {
          return Ok(better.value + note(better.value));
        }
      }
      r := Ok(m.content + note(m.content));
    }

    // One round of either loop, for any reply: ask, and play what tools it calls. An
    // answer without calls is left to the loop. asked: the conversation asked about.
    method PlayRound(session: Session, reply: Reply, setting: Setting, takes: nat -> bool)
      returns (end: RoundEnd, ghost asked: seq<Message>)
      modifies this`requests, this`forced, session
      ensures EndsRound(reply, takes, end)
      ensures Becomes(old(session.messages), asked)
      ensures requests == old(requests) +
              [Behind(setting.system, asked)]
      ensures session.messages == asked + Played(reply, setting.outputs, end)
      ensures Paired(old(session.messages)) && old(RequestsPaired()) ==>
                RequestsPaired() && (Paired(session.messages) <==> !EndsEarly(reply, end))
    {
      var resp := Ask(session, reply, setting);
      asked := session.messages;
      if resp.None? {
        return NoAnswer, asked;
      }
      var m := resp.value;
      if m.toolCalls == [] {
        return Final(m), asked;
      }
      session.Append(m);
      assert session.messages[..|session.messages| - 1] == asked;
      var refused := RunTools(session, m, setting.outputs, takes);
      Regroup(asked, [m], Results(m.toolCalls, setting.outputs,
                                  if refused.Some? then refused.value + 1 else |m.toolCalls|));
      end := if refused.Some? then RefusedAt(refused.value) else AllPlayed;
    }

    // The requests of a turn that stops at round at, with the grounded pass.
    function Asked(replies: Replies, at: nat): nat {
      if at == Budget() then at
      else if replies(at).Says? && agentic && grounded && !RetrievedBefore(replies, at) then at + 2
      else at + 1
    }

    // Where a loop stands before round i.
    ghost predicate Playing(messages: seq<Message>, requests: seq<seq<Message>>, k: nat, begun: seq<Message>,
                            replies: Replies, settings: Settings, i: nat) {
      && Becomes(Conversation(begun, replies, settings, i), messages)
      && |requests| == k + i && AllRequested(requests, k, begun, replies, settings, i)
    }

    // One round more.
    lemma PlayedMore(messages: seq<Message>, requests: seq<seq<Message>>, k: nat, begun: seq<Message>,
                     replies: Replies, settings: Settings, i: nat, asked: seq<Message>, end: RoundEnd)
      requires Playing(messages, requests, k, begun, replies, settings, i) && Becomes(messages, asked)
      ensures var after := requests + [Behind(settings(i).system, asked)];
              |after| == k + i + 1 && AllRequested(after, k, begun, replies, settings, i + 1)
      ensures var now := asked + Played(replies(i), settings(i).outputs, end);
              Becomes(Conversation(begun, replies, settings, i) + Played(replies(i), settings(i).outputs, end), now)
      ensures end.AllPlayed? ==>
                Becomes(Conversation(begun, replies, settings, i + 1),
                        asked + Played(replies(i), settings(i).outputs, end))
    {
      var said, more := Conversation(begun, replies, settings, i), Played(replies(i), settings(i).outputs, end);
      BecomesAgain(said, messages, asked);
      BecomesThen(said, asked, more);
      OneRequested(requests, k, begun, replies, settings, i, asked);
    }

    // Round i of either loop.
    method NextRound(session: Session, replies: Replies, settings: Settings, i: nat, takes: nat -> bool,
                     ghost k: nat, ghost begun: seq<Message>)
      returns (end: RoundEnd)
      requires Playing(session.messages, requests, k, begun, replies, settings, i)
      modifies this`requests, this`forced, session
      ensures EndsRound(replies(i), takes, end)
      ensures |requests| == k + i + 1 && AllRequested(requests, k, begun, replies, settings, i + 1)
      ensures end.AllPlayed? ==> Playing(session.messages, requests, k, begun, replies, settings, i + 1)
      ensures Becomes(Conversation(begun, replies, settings, i) + Played(replies(i), settings(i).outputs, end),
                      session.messages)
      ensures Paired(old(session.messages)) && old(RequestsPaired()) ==>
                RequestsPaired() && (Paired(session.messages) <==> !EndsEarly(replies(i), end))
    {
      ghost var was, held := requests, session.messages;
      ghost var asked;
      end, asked := PlayRound(session, replies(i), settings(i), takes);
      PlayedMore(held, was, k, begun, replies, settings, i, asked, end);
    }

    // Both loops: plays rounds until one does not play on. In Run every result is taken.
    method PlayOn(session: Session, replies: Replies, settings: Settings, takes: Takes)
      returns (at: nat, end: RoundEnd, usedRetrieval: bool)
      modifies this`requests, this`forced, session
      ensures at <= Budget() && PlayedBefore(replies, takes, at) && usedRetrieval == RetrievedBefore(replies, at)
      ensures if at == Budget() then end.OutOfRounds? else !end.AllPlayed? && EndsRound(replies(at), Of(takes, at), end)
      ensures Becomes(Conversation(old(session.messages), replies, settings, at) +
                      Played(replies(at), settings(at).outputs, end), session.messages)
      ensures |requests| == |old(requests)| + if at < Budget() then at + 1 else at
      ensures AllRequested(requests, |old(requests)|, old(session.messages), replies, settings,
                           if at < Budget() then at + 1 else at)
      ensures Paired(old(session.messages)) && old(RequestsPaired()) ==>
                RequestsPaired() && (Paired(session.messages) <==> at == Budget() || !EndsEarly(replies(at), end))
    {
      ghost var begun, before := session.messages, requests;
      ghost var paired := Paired(session.messages) && RequestsPaired();
      at, end, usedRetrieval := 0, OutOfRounds, false;
      while at < maxIters
        invariant Playing(session.messages, requests, |before|, begun, replies, settings, at)
        invariant paired ==> Paired(session.messages) && RequestsPaired()
        invariant at <= Budget() && PlayedBefore(replies, takes, at)
        invariant usedRetrieval == RetrievedBefore(replies, at)
      {
        end := NextRound(session, replies, settings, at, Of(takes, at), |before|, begun);
        RoundCounts(replies, takes, Budget(), at, end);
        if !end.AllPlayed? {
          return;
        }
        usedRetrieval := usedRetrieval || Retrieves(replies(at).calls);
        at := at + 1;
      }
      end := OutOfRounds;
      assert Conversation(begun, replies, settings, at) + [] == Conversation(begun, replies, settings, at);
    }

    // The loop of Run, for any replies of the provider: it stops at the first that calls
    // no tool.
    method PlayRounds(session: Session, replies: Replies, settings: Settings, fallback: Reply, classic: string,
                      note: string -> string)
      returns (r: Result<string, AgentError>, ghost at: nat)
      modifies this`requests, this`forced, session
      ensures StopsAt(replies, Budget(), at)
      ensures r == if at == Budget() then Err(MaxIterations) else Answer(replies, at, fallback, note)
      ensures Paired(old(session.messages)) && old(RequestsPaired()) ==> Paired(session.messages) && RequestsPaired()
      ensures Becomes(Conversation(old(session.messages), replies, settings, at) +
                      if at < Budget() && replies(at).Says? then [AssistantMessage(replies(at).content, [])] else [],
                      session.messages)
      ensures |requests| == |old(requests)| + Asked(replies, at)
      ensures AllRequested(requests, |old(requests)|, old(session.messages), replies, settings,
                           if at < Budget() then at + 1 else at)
      ensures Asked(replies, at) == at + 2 ==>
                Requested(requests[|old(requests)| + at + 1],
                          Conversation(old(session.messages), replies, settings, at), classic)
    {
      var i, end, usedRetrieval := PlayOn(session, replies, settings, AllTaken());
      at := i;
      NeverRefused(replies, i, Budget(), end);
      match end {
        case NoAnswer => return Err(ProviderFailed), i;
        case Final(m) =>
          ghost var was := requests;
          r := Finish(session, m, usedRetrieval, fallback, classic, note,
                      Conversation(old(session.messages), replies, settings, i));
          RequestsStay(was, requests, |old(requests)|, old(session.messages), replies, settings, i + 1);
          return r, i;
        case _ => return Err(MaxIterations), i;
      }
    }

    // The answer of Run, said: what was said before it.
    method Finish(session: Session, m: Message, usedRetrieval: bool, fallback: Reply, classic: string,
                  note: string -> string, ghost said: seq<Message>)
      returns (r: Result<string, AgentError>)
      requires m.role == Assistant && m.toolCalls == [] && Becomes(said + [], session.messages)
      modifies this`requests, session
      ensures Becomes(said + [m], session.messages)
      ensures old(requests) <= requests
      ensures |requests| == |old(requests)| + if agentic && grounded && !usedRetrieval then 1 else 0
      ensures agentic && grounded && !usedRetrieval ==> Requested(requests[|old(requests)|], said, classic)
      ensures old(Paired(session.messages)) && old(RequestsPaired()) ==> Paired(session.messages) && RequestsPaired()
      ensures r == Concluded(m.content, usedRetrieval, fallback, note)
    {
      ghost var held := session.messages;
      assert said + [] == said;
      r := Conclude(session, m, usedRetrieval, fallback, classic, note);
      BecomesThen(said, held, [m]);
      BehindIsRequested(said, held, classic);
    }

    // Run: whatever the exit, the session is the conversation that was played, compacted,
    // and it and every request keep calls and results together.
    method Run(session: Session, userInput: string, replies: Replies, settings: Settings, fallback: Reply,
               classic: string, note: string -> string)
      returns (r: Result<string, AgentError>, ghost at: nat)
      modifies this`requests, this`forced, session
      ensures StopsAt(replies, Budget(), at)
      ensures r == Err(MaxIterations) <==> at == if maxIters > 0 then maxIters else 0
      ensures r == Err(ProviderFailed) <==> at < Budget() && replies(at).NoReply?
      // The answer, or the grounded one where no call before asked the knowledge base.
      ensures at < Budget() && replies(at).Says? ==>
                var answer :=
                  if agentic && grounded && fallback.Says? && !Blank(fallback.content) &&
                     !(exists j, k :: 0 <= j < at && replies(j).Says? && 0 <= k < |replies(j).calls| &&
                         (replies(j).calls[k].name == "rag_search" || replies(j).calls[k].name == "graph_expand"))
                    then fallback.content else replies(at).content;
                r == Ok(answer + note(answer))
      ensures old(Paired(session.messages)) && old(RequestsPaired()) ==> Paired(session.messages) && RequestsPaired()
      ensures Becomes(Conversation(old(session.messages) + [Message(User, userInput, [], [], "", "")],
                                   replies, settings, at) +
                      if at < Budget() && replies(at).Says? then [AssistantMessage(replies(at).content, [])] else [],
                      session.messages)
      // One request a round, and one for the grounded pass.
      ensures |requests| == |old(requests)| +
              if at == Budget() then at
              else if replies(at).Says? && agentic && grounded &&
                      !(exists j, k :: 0 <= j < at && replies(j).Says? && 0 <= k < |replies(j).calls| &&
                          (replies(j).calls[k].name == "rag_search" || replies(j).calls[k].name == "graph_expand"))
                then at + 2 else at + 1
      ensures AllRequested(requests, |old(requests)|,
                           old(session.messages) + [Message(User, userInput, [], [], "", "")], replies, settings,
                           if at < Budget() then at + 1 else at)
      // The grounded pass is asked about the conversation without the answer.
      ensures at < Budget() && |requests| == |old(requests)| + at + 2 ==>
                Requested(requests[|old(requests)| + at + 1],
                          Conversation(old(session.messages) + [Message(User, userInput, [], [], "", "")],
                                       replies, settings, at), classic)
    {
      Say(session, UserMessage(userInput, []));
      r, at := PlayRounds(session, replies, settings, fallback, classic, note);
      RetrievedMeans(replies, at);
    }

    // The requests from k on, of the first n rounds, are each about what was said before.
    ghost predicate AllRequested(requests: seq<seq<Message>>, k: nat, begun: seq<Message>, replies: Replies,
                                 settings: Settings, n: nat) {
      k + n <= |requests| && forall j :: 0 <= j < n ==> RequestedIn(requests, k, begun, replies, settings, j)
    }

    ghost predicate RequestedIn(requests: seq<seq<Message>>, k: nat, begun: seq<Message>, replies: Replies,
                                settings: Settings, j: nat) {
      k + j < |requests| &&
      Requested(requests[k + j], Conversation(begun, replies, settings, j), settings(j).system)
    }

    lemma RequestsStay(was: seq<seq<Message>>, requests: seq<seq<Message>>, k: nat, begun: seq<Message>,
                       replies: Replies, settings: Settings, n: nat)
      requires was <= requests && AllRequested(was, k, begun, replies, settings, n)
      ensures AllRequested(requests, k, begun, replies, settings, n)
    {
      forall j | 0 <= j < n
        ensures RequestedIn(requests, k, begun, replies, settings, j)
      {
        assert RequestedIn(was, k, begun, replies, settings, j) && requests[k + j] == was[k + j];
      }
    }

    lemma BehindIsRequested(said: seq<Message>, asked: seq<Message>, system: string)
      requires Becomes(said, asked)
      ensures Requested(Behind(system, asked), said, system)
    {
      if system == "" {
        assert [] + asked == asked;
      }
    }

    lemma OneRequested(requests: seq<seq<Message>>, k: nat, begun: seq<Message>, replies: Replies, settings: Settings,
                       i: nat, asked: seq<Message>)
      requires |requests| == k + i && AllRequested(requests, k, begun, replies, settings, i)
      requires Becomes(Conversation(begun, replies, settings, i), asked)
      ensures AllRequested(requests + [Behind(settings(i).system, asked)], k, begun, replies, settings, i + 1)
    {
      var after := requests + [Behind(settings(i).system, asked)];
      BehindIsRequested(Conversation(begun, replies, settings, i), asked, settings(i).system);
      assert after[k + i] == Behind(settings(i).system, asked);
      RequestsStay(requests, after, k, begun, replies, settings, i);
    }

    // What Run returns from the round at which it stops.
    function Answer(replies: Replies, at: nat, fallback: Reply, note: string -> string): Result<string, AgentError> {
      match replies(at)
      case NoReply => Err(ProviderFailed)
      case Says(content, _) => Concluded(content, RetrievedBefore(replies, at), fallback, note)
    }

    // The end of the streaming loop: an answer goes to the session.
    method LeaveRound(session: Session, reply: Reply, setting: Setting, takes: nat -> bool, end: RoundEnd,
                      closing: bool, note: string -> string, ghost said: seq<Message>)
      returns (r: Result<string, AgentError>)
      requires EndsRound(reply, takes, end) && !end.AllPlayed?
      requires Becomes(said + Played(reply, setting.outputs, end), session.messages)
      modifies session
      ensures r == StreamAnswer(reply, closing, note)
      ensures Paired(old(session.messages)) ==> Paired(session.messages)
      ensures end.RefusedAt? ==> session.messages == old(session.messages)
      ensures Becomes(said + LastWords(reply, setting.outputs, takes), session.messages)
    {
      LastPlayed(reply, setting.outputs, takes, end);
      match end {
        case NoAnswer => return Err(ProviderFailed);
        case Final(m) =>
          ghost var held := session.messages;
          Say(session, m);
          BecomesThen(said + [], held, [m]);
          assert said + [] == said;
          return StreamAnswer(reply, closing, note);
        case RefusedAt(_) => return Err(SinkFailed);
      }
    }

    // RunStreamMessage from a user message on; consumeRound is in module Stream, and a
    // round that fails there is no reply. takes(i, k) is whether the sink takes the event
    // of result k of round i, closing whether it takes the events of the answer.
    method RunStream(session: Session, userInput: string, images: seq<Image>, replies: Replies, settings: Settings,
                     takes: Takes, closing: bool, note: string -> string)
      returns (r: Result<string, AgentError>, ghost at: nat)
      modifies this`requests, this`forced, session
      ensures StreamStopsAt(replies, takes, Budget(), at)
      ensures r == Err(MaxIterations) <==> at == if maxIters > 0 then maxIters else 0
      ensures r == Err(ProviderFailed) <==> at < Budget() && replies(at).NoReply?
      ensures r.Ok? <==> at < Budget() && replies(at).Says? && replies(at).calls == [] && closing
      ensures r.Ok? ==> r.value == replies(at).content + note(replies(at).content)
      // The session is left with unanswered calls exactly if the sink refuses a result
      // that is not the last of its round.
      ensures old(Paired(session.messages)) && old(RequestsPaired()) ==>
                RequestsPaired() && (Paired(session.messages) <==> !RefusedEarly(replies, takes, Budget()))
      ensures Becomes(Conversation(old(session.messages) + [Message(User, userInput, images, [], "", "")],
                                   replies, settings, at) +
                      if at < Budget() then LastWords(replies(at), settings(at).outputs, Of(takes, at)) else [],
                      session.messages)
      ensures |requests| == |old(requests)| + if at == Budget() then at else at + 1
      ensures AllRequested(requests, |old(requests)|,
                           old(session.messages) + [Message(User, userInput, images, [], "", "")], replies, settings,
                           if at < Budget() then at + 1 else at)
    {
      Say(session, UserMessage(userInput, images));
      ghost var begun := session.messages;
      var i, end, _ := PlayOn(session, replies, settings, takes);
      if i == Budget() {
        NotEarly(replies, takes, Budget(), i);
        return Err(MaxIterations), i;
      }
      RoundCounts(replies, takes, Budget(), i, end);
      r := LeaveRound(session, replies(i), settings(i), Of(takes, i), end, closing, note,
                      Conversation(begun, replies, settings, i));
      return r, i;
    }
  }

  // The answers of the sink in round i.
  function Of(takes: Takes, i: nat): nat -> bool {
    (k: nat) => takes(i, k)
  }

  function AllTaken(): Takes {
    (i: nat, k: nat) => true
  }

  lemma NeverRefused(replies: Replies, at: nat, budget: nat, end: RoundEnd)
    requires PlayedBefore(replies, AllTaken(), at) && at <= budget
    requires if at == budget then end.OutOfRounds?
             else !end.AllPlayed? && EndsRound(replies(at), Of(AllTaken(), at), end)
    ensures StopsAt(replies, budget, at) && !end.RefusedAt?
  {
    if at < budget && end.RefusedAt? {
      assert false;
    }
    forall j | 0 <= j < at
      ensures CallsTools(replies(j))
    {
      assert PlaysOn(replies, AllTaken(), j);
    }
  }

  // The first n results of these calls.
  function Results(calls: seq<ToolCall>, outputs: nat -> string, n: nat): (r: seq<Message>)
    requires n <= |calls|
    ensures |r| == n
    ensures forall k :: 0 <= k < n ==> r[k] == Message(Tool, outputs(k), [], [], calls[k].id, calls[k].name)
  {
    seq(n, k requires 0 <= k < n => ResultMessage(calls[k], outputs(k)))
  }

  // What a round of calls adds to the conversation, up to result n.
  function Exchange(reply: Reply, outputs: nat -> string, n: nat): seq<Message>
    requires reply.Says? && n <= |reply.calls|
  {
    [AssistantMessage(reply.content, reply.calls)] + Results(reply.calls, outputs, n)
  }

  // The conversation before round n: each call has its result.
  function Conversation(begun: seq<Message>, replies: Replies, settings: Settings, n: nat): seq<Message> {
    if n == 0 then begun
    else
      Conversation(begun, replies, settings, n - 1) +
      Played(replies(n - 1), settings(n - 1).outputs, AllPlayed)
  }

  // What a round adds, by its end; an answer without calls is left to the loop.
  function Played(reply: Reply, outputs: nat -> string, end: RoundEnd): seq<Message> {
    match end
    case RefusedAt(k) => if reply.Says? && k < |reply.calls| then Exchange(reply, outputs, k + 1) else []
    case AllPlayed => if reply.Says? then Exchange(reply, outputs, |reply.calls|) else []
    case _ => []
  }

  // Round by round the reply and its results, in order, each with what the tool gave.
  lemma ConversationMeans(begun: seq<Message>, replies: Replies, settings: Settings, n: nat)
    ensures Conversation(begun, replies, settings, 0) == begun
    ensures replies(n).NoReply? ==>
              Conversation(begun, replies, settings, n + 1) == Conversation(begun, replies, settings, n)
    ensures replies(n).Says? ==>
              var calls, outputs := replies(n).calls, settings(n).outputs;
              var c, before := Conversation(begun, replies, settings, n + 1), Conversation(begun, replies, settings, n);
              && |c| == |before| + 1 + |calls| && c[..|before|] == before
              && c[|before|] == Message(Assistant, replies(n).content, [], calls, "", "")
              && forall k :: 0 <= k < |calls| ==>
                   c[|before| + 1 + k] == Message(Tool, outputs(k), [], [], calls[k].id, calls[k].name)
  {
    assert Conversation(begun, replies, settings, n + 1) ==
           Conversation(begun, replies, settings, n) + Played(replies(n), settings(n).outputs, AllPlayed);
  }

  // The first result the sink does not take; the number of calls if it takes all.
  function FirstRefused(takes: nat -> bool, n: nat, from: nat): (k: nat)
    requires from <= n
    ensures from <= k <= n && (k < n ==> !takes(k)) && forall l :: from <= l < k ==> takes(l)
    decreases n - from
  {
    if from == n || !takes(from) then from else FirstRefused(takes, n, from + 1)
  }

  // What the last round of the streaming loop leaves: nothing, the answer, or the calls
  // with the results up to the one that is refused.
  function LastWords(reply: Reply, outputs: nat -> string, takes: nat -> bool): seq<Message> {
    if reply.NoReply? then []
    else
      var k := FirstRefused(takes, |reply.calls|, 0);
      Exchange(reply, outputs, if k < |reply.calls| then k + 1 else k)
  }

  lemma LastWordsMean(reply: Reply, outputs: nat -> string, takes: nat -> bool)
    ensures reply.NoReply? ==> LastWords(reply, outputs, takes) == []
    ensures reply.Says? ==>
              var calls, words := reply.calls, LastWords(reply, outputs, takes);
              && 1 <= |words| <= |calls| + 1
              && words[0] == Message(Assistant, reply.content, [], calls, "", "")
              && (forall k :: 0 <= k < |words| - 1 ==>
                    words[k + 1] == Message(Tool, outputs(k), [], [], calls[k].id, calls[k].name))
              // They end with the first result that is not taken, or with the last.
              && (forall k :: 0 <= k < |words| - 2 ==> takes(k))
              && (|words| <= |calls| ==> |words| >= 2 && !takes(|words| - 2))
  {
  }

  lemma LastPlayed(reply: Reply, outputs: nat -> string, takes: nat -> bool, end: RoundEnd)
    requires EndsRound(reply, takes, end) && !end.AllPlayed?
    ensures LastWords(reply, outputs, takes) == Played(reply, outputs, end) + if end.Final? then [end.m] else []
  {
    match end
    case RefusedAt(k) => assert FirstRefused(takes, |reply.calls|, 0) == k;
    case _ =>
  }

  datatype RoundEnd = NoAnswer | Final(m: Message) | AllPlayed | RefusedAt(k: nat) | OutOfRounds

  // How a round ends: with the first result that is not taken, if there is one.
  ghost predicate EndsRound(reply: Reply, takes: nat -> bool, end: RoundEnd) {
    match end
    case NoAnswer => reply.NoReply?
    case OutOfRounds => false
    case Final(m) => reply.Says? && reply.calls == [] && m == AssistantMessage(reply.content, [])
    case AllPlayed => CallsTools(reply) && forall k :: 0 <= k < |reply.calls| ==> takes(k)
    case RefusedAt(k) => reply.Says? && k < |reply.calls| && !takes(k) && forall l :: 0 <= l < k ==> takes(l)
  }

  ghost predicate EndsEarly(reply: Reply, end: RoundEnd) {
    end.RefusedAt? && reply.Says? && end.k + 1 < |reply.calls|
  }

  // What the streaming loop returns from the round at which it stops.
  function StreamAnswer(reply: Reply, closing: bool, note: string -> string): Result<string, AgentError> {
    match reply
    case NoReply => Err(ProviderFailed)
    case Says(content, calls) => if calls != [] || !closing then Err(SinkFailed) else Ok(content + note(content))
  }

  // The sink takes every result of the round.
  ghost predicate PlaysOn(replies: Replies, takes: Takes, i: nat) {
    CallsTools(replies(i)) && forall k :: 0 <= k < |replies(i).calls| ==> takes(i, k)
  }

  ghost predicate PlayedBefore(replies: Replies, takes: Takes, n: nat) {
    forall j :: 0 <= j < n ==> PlaysOn(replies, takes, j)
  }

  // The first round that calls no tool, fails, or has a result refused; the budget if none.
  ghost predicate StreamStopsAt(replies: Replies, takes: Takes, budget: nat, at: nat) {
    at <= budget && PlayedBefore(replies, takes, at) && (at < budget ==> !PlaysOn(replies, takes, at))
  }

  // In a round that is played the sink refuses a result before the last.
  ghost predicate RefusedEarly(replies: Replies, takes: Takes, budget: nat) {
    exists i, k :: 0 <= i < budget && RefusedIn(replies, takes, i, k)
  }

  ghost predicate RefusedIn(replies: Replies, takes: Takes, i: nat, k: int) {
    PlayedBefore(replies, takes, i) && replies(i).Says? && 0 <= k < |replies(i).calls| - 1 && !takes(i, k)
  }

  // A turn that stops without a refusal has no early one.
  lemma NotEarly(replies: Replies, takes: Takes, budget: nat, at: nat)
    requires PlayedBefore(replies, takes, at) && (at == budget || !CallsTools(replies(at)))
    ensures !RefusedEarly(replies, takes, budget)
  {
    forall i, k | 0 <= i < budget
      ensures !RefusedIn(replies, takes, i, k)
    {
      assert i < at ==> PlaysOn(replies, takes, i);
      assert at < i && RefusedIn(replies, takes, i, k) ==> PlaysOn(replies, takes, at);
    }
  }

  // What the end of round at tells about the turn.
  lemma RoundCounts(replies: Replies, takes: Takes, budget: nat, at: nat, end: RoundEnd)
    requires at < budget && PlayedBefore(replies, takes, at)
    requires EndsRound(replies(at), Of(takes, at), end)
    ensures PlaysOn(replies, takes, at) <==> end.AllPlayed?
    ensures end.AllPlayed? ==> PlayedBefore(replies, takes, at + 1)
    ensures !end.AllPlayed? ==> (RefusedEarly(replies, takes, budget) <==> EndsEarly(replies(at), end))
  {
    var taken := Of(takes, at);
    assert forall k: nat :: taken(k) == takes(at, k);
    match end
    case RefusedAt(k) =>
      assert !taken(k) && forall l: nat :: l < k ==> taken(l);
      if k + 1 < |replies(at).calls| {
        assert RefusedIn(replies, takes, at, k);
      } else {
        forall i, l | 0 <= i < budget
          ensures !RefusedIn(replies, takes, i, l)
        {
          assert i < at ==> PlaysOn(replies, takes, i);
          assert at < i && RefusedIn(replies, takes, i, l) ==> PlaysOn(replies, takes, at);
          assert 0 <= l < k ==> taken(l);
        }
      }
    case AllPlayed =>
      assert forall k :: 0 <= k < |replies(at).calls| ==> taken(k);
    case _ => NotEarly(replies, takes, budget, at);
  }

  // A round of two calls of which the sink refuses the first result: the conversation
  // that is left lacks the second.
  lemma RefusedResultUnpairs(calls: seq<ToolCall>, input: string, result: string)
    requires |calls| == 2
    ensures RefusedEarly(_ => Says("", calls), (_, _) => false, 1)
    ensures !Paired([UserMessage(input, []), AssistantMessage("", calls), ResultMessage(calls[0], result)])
  {
    var replies: Replies, takes: Takes := _ => Says("", calls), (_, _) => false;
    assert RefusedIn(replies, takes, 0, 0);
    var user, round := [UserMessage(input, [])], [AssistantMessage("", calls), ResultMessage(calls[0], result)];
    PairedPlain(user[0]);
    PairedAppend(user, round);
    assert round == [AssistantMessage("", calls)] + [ResultMessage(calls[0], result)];
    UnpairedGroup(AssistantMessage("", calls), [ResultMessage(calls[0], result)]);
    assert user + round == [UserMessage(input, []), AssistantMessage("", calls), ResultMessage(calls[0], result)];
  }

  // A group keeps a paired conversation paired exactly when all its results are there.
  lemma GroupPairing(base: seq<Message>, m: Message, results: seq<Message>)
    requires m.role == Assistant && |results| <= |m.toolCalls|
    requires forall k :: 0 <= k < |results| ==>
               results[k].role == Tool && results[k].toolCallID == m.toolCalls[k].id && results[k].toolCalls == []
    ensures Paired(base) ==> (Paired(base + ([m] + results)) <==> |results| == |m.toolCalls|)
  {
    if |results| < |m.toolCalls| {
      UnpairedGroup(m, results);
    } else {
      PairedGroup(m, results);
    }
    if Paired(base) {
      PairedAppend(base, [m] + results);
    }
  }

  function Untried(tried: seq<bool>): nat {
    if tried == [] then 0 else (if tried[0] then 0 else 1) + Untried(tried[1..])
  }

  lemma {:induction false} TryOne(tried: seq<bool>, i: nat)
    requires i < |tried| && !tried[i]
    ensures Untried(tried[i := true]) < Untried(tried)
  {
    if i > 0 {
      assert tried[i := true][1..] == tried[1..][i - 1 := true];
      TryOne(tried[1..], i - 1);
    } else {
      assert tried[0 := true][1..] == tried[1..];
    }
  }
}
