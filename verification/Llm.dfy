/** Messages of a conversation and the pairing of tool calls with their results
    (internal/llm/llm.go). */
module Llm {
  datatype Role = System | User | Assistant | Tool

  datatype ToolCall = ToolCall(id: string, name: string, arguments: string)

  datatype Image = Image(mimeType: string, data: string)

  datatype Message = Message(
    role: Role, content: string, images: seq<Image>, toolCalls: seq<ToolCall>, toolCallID: string, name: string)

  function AssistantMessage(content: string, calls: seq<ToolCall>): Message {
    Message(Assistant, content, [], calls, "", "")
  }

  function UserMessage(content: string, images: seq<Image>): Message {
    Message(User, content, images, [], "", "")
  }

  function SystemMessage(content: string): Message {
    Message(System, content, [], [], "", "")
  }

  function ResultMessage(call: ToolCall, content: string): Message {
    Message(Tool, content, [], [], call.id, call.name)
  }

  // What the new messages hold.
  lemma NewMessages(content: string, images: seq<Image>, calls: seq<ToolCall>, call: ToolCall)
    ensures var a, u, s, r := AssistantMessage(content, calls), UserMessage(content, images), SystemMessage(content),
                ResultMessage(call, content);
            && a.role == Assistant && u.role == User && s.role == System && r.role == Tool
            && a.content == u.content == s.content == r.content == content
            && a.toolCalls == calls && u.toolCalls == s.toolCalls == r.toolCalls == []
            && u.images == images && a.images == s.images == r.images == []
            && r.toolCallID == call.id && r.name == call.name
  {
  }

  ghost predicate Answers(calls: seq<ToolCall>, results: seq<Message>) {
    |results| == |calls| &&
    forall i :: 0 <= i < |calls| ==>
      results[i].role == Tool && results[i].toolCallID == calls[i].id && results[i].toolCalls == []
  }

  // Every message with tool calls is an assistant message followed by exactly its
  // results, in order; no result stands alone.
  ghost predicate Paired(msgs: seq<Message>)
    decreases |msgs|
  {
    msgs == [] ||
    var n := |msgs[0].toolCalls|;
    && msgs[0].role != Tool
    && (n > 0 ==> msgs[0].role == Assistant)
    && n < |msgs|
    && Answers(msgs[0].toolCalls, msgs[1..n + 1])
    && Paired(msgs[n + 1..])
  }

  // Call k of message i has its result in its place behind the message.
  ghost predicate Answered(msgs: seq<Message>, i: nat, k: nat) {
    i < |msgs| && k < |msgs[i].toolCalls| ==>
      && msgs[i].role == Assistant && i + 1 + k < |msgs| && msgs[i + 1 + k].toolCalls == []
      && msgs[i + 1 + k].role == Tool && msgs[i + 1 + k].toolCallID == msgs[i].toolCalls[k].id
  }

  ghost predicate AllAnswered(msgs: seq<Message>) {
    forall i: nat, k: nat :: Answered(msgs, i, k)
  }

  // Message j stands among the results of some calls before it.
  ghost predicate Called(msgs: seq<Message>, j: nat) {
    exists i :: 0 <= i < |msgs| && i < j <= i + |msgs[i].toolCalls|
  }

  ghost predicate ResultsCalled(msgs: seq<Message>) {
    forall j :: 0 <= j < |msgs| && msgs[j].role == Tool ==> Called(msgs, j)
  }

  // Message by message: each call has its result, by its id, and each result has its call.
  lemma {:induction false} PairedMeans(msgs: seq<Message>)
    ensures Paired(msgs) <==> AllAnswered(msgs) && ResultsCalled(msgs)
    decreases |msgs|
  {
    if msgs != [] {
      var n := |msgs[0].toolCalls|;
      if n < |msgs| {
        PairedMeans(msgs[n + 1..]);
        if Paired(msgs) {
          PairedForward(msgs, n);
        } else if AllAnswered(msgs) && ResultsCalled(msgs) {
          AnsweredBack(msgs, n);
          CalledBack(msgs, n);
        }
      } else {
        assert !Answered(msgs, 0, n - 1);
      }
    }
  }

  lemma AnsweredMoves(msgs: seq<Message>, m: nat, i: nat, k: nat)
    requires m <= |msgs|
    ensures Answered(msgs[m..], i, k) <==> Answered(msgs, m + i, k)
  {
    assert m + i < |msgs| ==> msgs[m..][i] == msgs[m + i];
    assert m + i + 1 + k < |msgs| ==> msgs[m..][i + 1 + k] == msgs[m + i + 1 + k];
  }

  lemma PairedForward(msgs: seq<Message>, n: nat)
    requires Paired(msgs) && msgs != [] && n == |msgs[0].toolCalls| < |msgs|
    requires AllAnswered(msgs[n + 1..]) && ResultsCalled(msgs[n + 1..])
    ensures AllAnswered(msgs) && ResultsCalled(msgs)
  {
    var rest := msgs[n + 1..];
    forall i: nat, k: nat
      ensures Answered(msgs, i, k)
    {
      if i <= n {
        GroupAnswered(msgs, n, i, k);
      } else {
        assert Answered(rest, i - n - 1, k);
        AnsweredMoves(msgs, n + 1, i - n - 1, k);
      }
    }
    forall j | 0 <= j < |msgs| && msgs[j].role == Tool
      ensures Called(msgs, j)
    {
      if j <= n {
        assert 0 < j <= |msgs[0].toolCalls|;
      } else {
        assert rest[j - n - 1] == msgs[j] && Called(rest, j - n - 1);
        var i :| 0 <= i < |rest| && i < j - n - 1 <= i + |rest[i].toolCalls|;
        assert msgs[n + 1 + i] == rest[i];
      }
    }
  }

  lemma GroupAnswered(msgs: seq<Message>, n: nat, i: nat, k: nat)
    requires msgs != [] && n == |msgs[0].toolCalls| < |msgs| && i <= n && Answers(msgs[0].toolCalls, msgs[1..n + 1])
    requires n > 0 ==> msgs[0].role == Assistant
    ensures Answered(msgs, i, k)
  {
    var results := msgs[1..n + 1];
    if i > 0 {
      assert results[i - 1] == msgs[i];
    } else if k < n {
      assert results[k] == msgs[1 + k];
    }
  }

  lemma AnsweredBack(msgs: seq<Message>, n: nat)
    requires AllAnswered(msgs) && msgs != [] && n == |msgs[0].toolCalls| < |msgs|
    ensures AllAnswered(msgs[n + 1..]) && Answers(msgs[0].toolCalls, msgs[1..n + 1])
    ensures n > 0 ==> msgs[0].role == Assistant
  {
    var rest := msgs[n + 1..];
    forall i: nat, k: nat
      ensures Answered(rest, i, k)
    {
      AnsweredMoves(msgs, n + 1, i, k);
    }
    var results := msgs[1..n + 1];
    assert Answered(msgs, 0, 0);
    forall k | 0 <= k < n
      ensures results[k].role == Tool && results[k].toolCallID == msgs[0].toolCalls[k].id && results[k].toolCalls == []
    {
      assert Answered(msgs, 0, k);
    }
  }

  lemma CalledBack(msgs: seq<Message>, n: nat)
    requires AllAnswered(msgs) && ResultsCalled(msgs) && msgs != [] && n == |msgs[0].toolCalls| < |msgs|
    ensures ResultsCalled(msgs[n + 1..]) && msgs[0].role != Tool
  {
    var rest := msgs[n + 1..];
    assert !Called(msgs, 0);
    forall i | 0 < i <= n
      ensures msgs[i].toolCalls == []
    {
      assert Answered(msgs, 0, i - 1);
    }
    forall j | 0 <= j < |rest| && rest[j].role == Tool
      ensures Called(rest, j)
    {
      assert msgs[n + 1 + j] == rest[j] && Called(msgs, n + 1 + j);
      var i :| 0 <= i < |msgs| && i < n + 1 + j <= i + |msgs[i].toolCalls|;
      assert rest[i - n - 1] == msgs[i];
    }
  }

  lemma {:induction false} PairedAppend(a: seq<Message>, b: seq<Message>)
    requires Paired(a)
    ensures Paired(a + b) <==> Paired(b)
    decreases |a|
  {
    if a == [] {
      assert a + b == b;
    } else {
      var n := |a[0].toolCalls|;
      assert (a + b)[0] == a[0];
      assert (a + b)[1..n + 1] == a[1..n + 1];
      assert (a + b)[n + 1..] == a[n + 1..] + b;
      PairedAppend(a[n + 1..], b);
    }
  }

  lemma PairedPlain(m: Message)
    requires m.role != Tool && m.toolCalls == []
    ensures Paired([m])
  {
    assert Answers([], [m][1..1]);
    assert [m][1..] == [];
  }

  lemma PairedGroup(m: Message, results: seq<Message>)
    requires m.role == Assistant && Answers(m.toolCalls, results)
    ensures Paired([m] + results)
  {
    var g := [m] + results;
    assert g[1..|results| + 1] == results;
    assert g[|results| + 1..] == [];
  }

  // A group that misses results is not paired.
  lemma UnpairedGroup(m: Message, results: seq<Message>)
    requires |results| < |m.toolCalls|
    ensures !Paired([m] + results)
  {
  }

  // Same conversation but for the text of messages.
  ghost predicate SameShape(a: seq<Message>, b: seq<Message>) {
    |a| == |b| && forall i :: 0 <= i < |a| ==> b[i] == a[i].(content := b[i].content)
  }

  lemma AnswersShape(calls: seq<ToolCall>, a: seq<Message>, b: seq<Message>)
    requires SameShape(a, b)
    ensures Answers(calls, a) <==> Answers(calls, b)
  {
    assert forall i :: 0 <= i < |a| ==>
      b[i].role == a[i].role && b[i].toolCallID == a[i].toolCallID && b[i].toolCalls == a[i].toolCalls;
  }

  lemma {:induction false} ShapeKeepsPairing(a: seq<Message>, b: seq<Message>)
    requires SameShape(a, b)
    ensures Paired(a) <==> Paired(b)
    decreases |a|
  {
    if a != [] {
      var n := |a[0].toolCalls|;
      assert b[0].toolCalls == a[0].toolCalls && b[0].role == a[0].role;
      if n < |a| {
        AnswersShape(a[0].toolCalls, a[1..n + 1], b[1..n + 1]);
        ShapeKeepsPairing(a[n + 1..], b[n + 1..]);
      }
    }
  }
}
