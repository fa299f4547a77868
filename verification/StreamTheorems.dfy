/** Streaming agrees with the non-streaming reply
    (internal/llm/anthropic/stream.go, client.go; internal/agent/stream.go). */
module StreamTheorems {
  import opened Prelude
  import opened Llm
  import opened Stream
  import Wire

  // ---------- what an event sequence says, read off directly ----------

  datatype Start = Start(index: int, id: string, name: string)

  function TextOf(events: seq<Event>): string {
    if events == [] then ""
    else TextOf(events[..|events| - 1]) + (var e := events[|events| - 1]; if e.TextDelta? then e.text else "")
  }

  function StartsOf(events: seq<Event>): seq<Start> {
    if events == [] then []
    else
      StartsOf(events[..|events| - 1]) +
         (var e := events[|events| - 1]; if e.UseStart? then [Start(e.index, e.id, e.name)] else [])
  }

  // The JSON fragments of one block.
  function ArgsOf(events: seq<Event>, index: int): string {
    if events == [] then ""
    else
      ArgsOf(events[..|events| - 1], index) +
         (var e := events[|events| - 1]; if e.JsonDelta? && e.index == index then e.partial else "")
  }

  // Blocks may interleave; a tool block starts before its fragments, with an id and
  // an index of its own. Its name may be empty.
  ghost predicate WellFormed(events: seq<Event>) {
    events == [] ||
    var before, e := events[..|events| - 1], events[|events| - 1];
    WellFormed(before) &&
    match e
    case UseStart(index, id, name) => id != "" && Fresh(StartsOf(before), index, id)
    case JsonDelta(index, _) => HasStarted(StartsOf(before), index)
    case TextDelta(_, _) => true
    case Ignored => true
    case _ => false
  }

  ghost predicate Fresh(starts: seq<Start>, index: int, id: string) {
    forall k :: 0 <= k < |starts| ==> starts[k].index != index && starts[k].id != id
  }

  ghost predicate HasStarted(starts: seq<Start>, index: int) {
    exists k :: 0 <= k < |starts| && starts[k].index == index
  }

  function CallOf(events: seq<Event>, s: Start): ToolCall {
    ToolCall(s.id, s.name, ArgsOf(events, s.index))
  }

  // ---------- what the sink hears ----------

  function TextHeard(events: seq<Emitted>): string {
    if events == [] then ""
    else TextHeard(events[..|events| - 1]) + (var e := events[|events| - 1]; if e.Text? then e.text else "")
  }

  function CountStarts(events: seq<Emitted>, id: string): nat {
    if events == [] then 0
    else
      CountStarts(events[..|events| - 1], id) +
      (var e := events[|events| - 1]; if e.CallStart? && e.id == id then 1 else 0)
  }

  function CountEnds(events: seq<Emitted>, id: string): nat {
    if events == [] then 0
    else
      CountEnds(events[..|events| - 1], id) +
      (var e := events[|events| - 1]; if e.CallEnd? && e.id == id then 1 else 0)
  }

  // Arguments are told only of calls whose start was told before.
  ghost predicate ArgsAfterStart(events: seq<Emitted>) {
    events == [] ||
    var before, e := events[..|events| - 1], events[|events| - 1];
    ArgsAfterStart(before) && (e.CallArgs? ==> CountStarts(before, e.id) == 1)
  }

  lemma HearOne(events: seq<Emitted>, e: Emitted)
    ensures var more := events + [e];
            && TextHeard(more) == TextHeard(events) + (if e.Text? then e.text else "")
            && (ArgsAfterStart(more) <==> ArgsAfterStart(events) && (e.CallArgs? ==> CountStarts(events, e.id) == 1))
            && forall id ::
                 CountStarts(more, id) == CountStarts(events, id) + (if e.CallStart? && e.id == id then 1 else 0) &&
                 CountEnds(more, id) == CountEnds(events, id) + (if e.CallEnd? && e.id == id then 1 else 0)
  {
    var more := events + [e];
    assert more[..|more| - 1] == events;
  }

  // ---------- both machines after the same events ----------

  // The blocks started so far, each with its call so far, and the text so far.
  datatype Open = Open(index: int, call: ToolCall)

  datatype View = View(known: seq<Open>, text: string)

  ghost predicate Distinct(known: seq<Open>) {
    (forall k :: 0 <= k < |known| ==> known[k].call.id != "") &&
    (forall j, k :: 0 <= j < k < |known| ==> known[j].index != known[k].index && known[j].call.id != known[k].call.id)
  }

  ghost predicate ProducerAt(v: View, p: Producer) {
    && !p.over && BodyOnly(p.sent)
    && forall k :: 0 <= k < |v.known| ==> v.known[k].index in p.blocks && p.blocks[v.known[k].index] == v.known[k].call
  }

  ghost predicate ConsumerAt(v: View, c: Consumer) {
    && c.content == v.text
    && |c.order| == |v.known|
    && (forall k :: 0 <= k < |v.known| ==>
          c.order[k] == v.known[k].call.id && c.order[k] in c.calls &&
            c.calls[c.order[k]] == CallState(v.known[k].call, v.known[k].call.name != ""))
    && (forall id :: id in c.calls ==> id in c.order)
  }

  // Only a call with a name is told to start.
  function StartsDue(name: string): nat {
    if name != "" then 1 else 0
  }

  // What has been told matches the calls known so far: one start each, if it has a name,
  // and no end yet.
  ghost predicate Told(v: View, events: seq<Emitted>) {
    && TextHeard(events) == v.text
    && ArgsAfterStart(events)
    && (forall k :: 0 <= k < |v.known| ==>
          CountStarts(events, v.known[k].call.id) == StartsDue(v.known[k].call.name))
    && (forall id :: Unknown(v, id) ==> CountStarts(events, id) == 0)
    && (forall id :: CountEnds(events, id) == 0)
  }

  ghost predicate Unknown(v: View, id: string) {
    forall k :: 0 <= k < |v.known| ==> v.known[k].call.id != id
  }

  ghost predicate InStep(v: View, p: Producer) {
    var c := ConsumeAll(p.sent);
    Distinct(v.known) && ProducerAt(v, p) && ConsumerAt(v, c) && Told(v, c.events)
  }

  ghost predicate BodyOnly(chunks: seq<Chunk>) {
    forall i :: 0 <= i < |chunks| ==> chunks[i].Delta? || chunks[i].CallDelta?
  }

  lemma SendOne(sent: seq<Chunk>, c: Chunk)
    ensures ConsumeAll(sent + [c]) == Consume(ConsumeAll(sent), c)
  {
    assert (sent + [c])[..|sent|] == sent;
  }

  function Started(v: View, index: int, id: string, name: string): View {
    v.(known := v.known + [Open(index, ToolCall(id, name, ""))])
  }

  function More(call: ToolCall, partial: string): ToolCall {
    call.(arguments := call.arguments + partial)
  }

  function Extended(v: View, k: nat, partial: string): View
    requires k < |v.known|
  {
    v.(known := v.known[k := v.known[k].(call := More(v.known[k].call, partial))])
  }

  lemma ToldText(v: View, events: seq<Emitted>, text: string)
    requires Told(v, events)
    ensures Told(v.(text := v.text + text), events + [Text(text)])
  {
    HearOne(events, Text(text));
  }

  lemma UnknownBefore(v: View, index: int, id: string, name: string, other: string)
    requires Unknown(Started(v, index, id, name), other)
    ensures Unknown(v, other) && other != id
  {
    var w := Started(v, index, id, name);
    assert w.known[|v.known|].call.id == id;
    assert forall k :: 0 <= k < |v.known| ==> w.known[k] == v.known[k];
  }

  // What the sink is told of a call that begins.
  function Beginning(id: string, name: string): seq<Emitted> {
    if name != "" then [CallStart(id, name)] else []
  }

  lemma HearBeginning(events: seq<Emitted>, id: string, name: string)
    ensures var more := events + Beginning(id, name);
            && TextHeard(more) == TextHeard(events)
            && (ArgsAfterStart(more) <==> ArgsAfterStart(events))
            && (forall other :: CountEnds(more, other) == CountEnds(events, other))
            && forall other ::
                 CountStarts(more, other) == CountStarts(events, other) + if other == id then StartsDue(name) else 0
  {
    if name != "" {
      HearOne(events, CallStart(id, name));
    } else {
      assert events + [] == events;
    }
  }

  lemma ToldStart(v: View, events: seq<Emitted>, index: int, id: string, name: string)
    requires Told(v, events) && Unknown(v, id)
    ensures Told(Started(v, index, id, name), events + Beginning(id, name))
  {
    var w, more := Started(v, index, id, name), events + Beginning(id, name);
    HearBeginning(events, id, name);
    forall other | Unknown(w, other)
      ensures CountStarts(more, other) == 0
    {
      UnknownBefore(v, index, id, name, other);
    }
    forall k | 0 <= k < |w.known|
      ensures CountStarts(more, w.known[k].call.id) == StartsDue(w.known[k].call.name)
    {
      if k < |v.known| {
        assert w.known[k] == v.known[k] && v.known[k].call.id != id;
      }
    }
    assert TextHeard(more) == w.text && ArgsAfterStart(more);
  }

  lemma SameIds(v: View, k: nat, partial: string, id: string)
    requires k < |v.known|
    ensures Unknown(Extended(v, k, partial), id) <==> Unknown(v, id)
  {
    var w := Extended(v, k, partial);
    assert forall j :: 0 <= j < |v.known| ==> w.known[j].call.id == v.known[j].call.id;
  }

  lemma ToldArgs(v: View, events: seq<Emitted>, k: nat, partial: string)
    requires Told(v, events) && k < |v.known|
    ensures var c := More(v.known[k].call, partial);
            && Told(Extended(v, k, partial), events)
            && (c.name != "" ==> Told(Extended(v, k, partial), events + [CallArgs(c.id, c.name, c.arguments)]))
  {
    var c := More(v.known[k].call, partial);
    var w := Extended(v, k, partial);
    HearOne(events, CallArgs(c.id, c.name, c.arguments));
    forall id
      ensures Unknown(w, id) <==> Unknown(v, id)
    {
      SameIds(v, k, partial, id);
    }
    assert forall j :: 0 <= j < |v.known| ==>
             w.known[j].call.id == v.known[j].call.id && w.known[j].call.name == v.known[j].call.name;
  }

  lemma ConsumerStart(v: View, c: Consumer, index: int, id: string, name: string)
    requires Distinct(v.known) && ConsumerAt(v, c) && id != "" && Unknown(v, id)
    ensures var t := TakeCall(c, ToolCall(id, name, ""));
            ConsumerAt(Started(v, index, id, name), t) && t.events == c.events + Beginning(id, name)
  {
    assert id !in c.calls;
    assert c.events + Beginning(id, name) + [] == c.events + Beginning(id, name);
  }

  lemma ConsumerArgs(v: View, c: Consumer, k: nat, partial: string)
    requires Distinct(v.known) && ConsumerAt(v, c) && k < |v.known|
    ensures var m := More(v.known[k].call, partial);
            var t := TakeCall(c, m);
            ConsumerAt(Extended(v, k, partial), t) &&
            t.events ==
            if m.name != "" && m.arguments != "" then c.events + [CallArgs(m.id, m.name, m.arguments)] else c.events
  {
    var m := More(v.known[k].call, partial);
    assert c.order[k] == m.id && Merge(v.known[k].call, m) == m;
    assert forall e: seq<Emitted> :: c.events + [] + e == c.events + e;
    assert c.events + [] == c.events;
  }

  lemma TextStep(v: View, p: Producer, index: int, text: string)
    requires InStep(v, p)
    ensures InStep(v.(text := v.text + text), Produce(p, TextDelta(index, text)))
  {
    if text == "" {
      assert v.text + text == v.text;
    } else {
      SendOne(p.sent, Delta(text));
      ToldText(v, ConsumeAll(p.sent).events, text);
    }
  }

  lemma ProducerStart(v: View, p: Producer, index: int, id: string, name: string)
    requires Distinct(v.known) && ProducerAt(v, p) && id != "" && Unknown(v, id)
    requires forall k :: 0 <= k < |v.known| ==> v.known[k].index != index
    ensures Distinct(Started(v, index, id, name).known)
    ensures ProducerAt(Started(v, index, id, name), Produce(p, UseStart(index, id, name)))
  {
    var w := Started(v, index, id, name);
    assert forall k :: 0 <= k < |v.known| ==> w.known[k] == v.known[k];
  }

  lemma ProducerArgs(v: View, p: Producer, k: nat, partial: string)
    requires Distinct(v.known) && ProducerAt(v, p) && k < |v.known|
    ensures Distinct(Extended(v, k, partial).known)
    ensures var q := Produce(p, JsonDelta(v.known[k].index, partial));
            ProducerAt(Extended(v, k, partial), q) && q.sent == p.sent + [CallDelta(More(v.known[k].call, partial))]
  {
    assert BlockFor(p.blocks, v.known[k].index) == v.known[k].call;
    var w := Extended(v, k, partial);
    assert forall j :: 0 <= j < |v.known| ==>
             w.known[j].call.id == v.known[j].call.id && w.known[j].index == v.known[j].index;
  }

  lemma StartStep(v: View, p: Producer, index: int, id: string, name: string)
    requires InStep(v, p) && id != "" && Unknown(v, id)
    requires forall k :: 0 <= k < |v.known| ==> v.known[k].index != index
    ensures InStep(Started(v, index, id, name), Produce(p, UseStart(index, id, name)))
  {
    var c := ConsumeAll(p.sent);
    var call := ToolCall(id, name, "");
    ProducerStart(v, p, index, id, name);
    SendOne(p.sent, CallDelta(call));
    assert Consume(c, CallDelta(call)) == TakeCall(c, call);
    ConsumerStart(v, c, index, id, name);
    ToldStart(v, c.events, index, id, name);
  }

  lemma JsonStep(v: View, p: Producer, k: nat, partial: string)
    requires InStep(v, p) && k < |v.known|
    ensures InStep(Extended(v, k, partial), Produce(p, JsonDelta(v.known[k].index, partial)))
  {
    var c := ConsumeAll(p.sent);
    var m := More(v.known[k].call, partial);
    ProducerArgs(v, p, k, partial);
    SendOne(p.sent, CallDelta(m));
    assert Consume(c, CallDelta(m)) == TakeCall(c, m);
    ConsumerArgs(v, c, k, partial);
    ToldArgs(v, c.events, k, partial);
  }

  // ---------- any well-formed event sequence ----------

  ghost predicate Describes(v: View, events: seq<Event>) {
    var starts := StartsOf(events);
    && v.text == TextOf(events) && |v.known| == |starts|
    && forall k :: 0 <= k < |starts| ==> v.known[k] == Open(starts[k].index, CallOf(events, starts[k]))
  }

  // The reference functions after one more event.
  lemma OneMore(events: seq<Event>, e: Event)
    ensures var more := events + [e];
            && TextOf(more) == TextOf(events) + (if e.TextDelta? then e.text else "")
            && StartsOf(more) == StartsOf(events) + (if e.UseStart? then [Start(e.index, e.id, e.name)] else [])
  {
    assert (events + [e])[..|events + [e]| - 1] == events;
  }

  lemma OneMoreArgs(events: seq<Event>, e: Event, index: int)
    ensures ArgsOf(events + [e], index) ==
            ArgsOf(events, index) + (if e.JsonDelta? && e.index == index then e.partial else "")
  {
    assert (events + [e])[..|events + [e]| - 1] == events;
  }

  lemma StartsGrow(events: seq<Event>, e: Event, index: int)
    requires HasStarted(StartsOf(events), index)
    ensures HasStarted(StartsOf(events + [e]), index)
  {
    OneMore(events, e);
    var k :| 0 <= k < |StartsOf(events)| && StartsOf(events)[k].index == index;
    assert StartsOf(events + [e])[k] == StartsOf(events)[k];
  }

  // A block that has not started has no arguments.
  lemma {:induction false} NoArgsBeforeStart(events: seq<Event>, index: int)
    requires WellFormed(events) && !HasStarted(StartsOf(events), index)
    ensures ArgsOf(events, index) == ""
  {
    if events != [] {
      var before, e := events[..|events| - 1], events[|events| - 1];
      assert before + [e] == events;
      OneMoreArgs(before, e, index);
      if !HasStarted(StartsOf(before), index) {
        NoArgsBeforeStart(before, index);
      } else {
        StartsGrow(before, e, index);
      }
    }
  }

  lemma DescribesText(v: View, events: seq<Event>, e: Event)
    requires Describes(v, events) && (e.TextDelta? || e.Ignored?)
    ensures Describes(v.(text := v.text + if e.TextDelta? then e.text else ""), events + [e])
  {
    OneMore(events, e);
    forall k | 0 <= k < |v.known|
      ensures v.known[k] == Open(StartsOf(events)[k].index, CallOf(events + [e], StartsOf(events)[k]))
    {
      OneMoreArgs(events, e, StartsOf(events)[k].index);
    }
  }

  lemma DescribesStart(v: View, events: seq<Event>, index: int, id: string, name: string)
    requires Describes(v, events) && WellFormed(events) && Fresh(StartsOf(events), index, id)
    ensures Describes(Started(v, index, id, name), events + [UseStart(index, id, name)])
  {
    var e := UseStart(index, id, name);
    var starts, w := StartsOf(events), Started(v, index, id, name);
    OneMore(events, e);
    NoArgsBeforeStart(events, index);
    forall k | 0 <= k <= |starts|
      ensures var s := StartsOf(events + [e])[k]; w.known[k] == Open(s.index, CallOf(events + [e], s))
    {
      OneMoreArgs(events, e, StartsOf(events + [e])[k].index);
      if k < |starts| {
        assert StartsOf(events + [e])[k] == starts[k] && w.known[k] == v.known[k];
      }
    }
  }

  lemma DescribesJson(v: View, events: seq<Event>, k: nat, partial: string)
    requires Describes(v, events) && Distinct(v.known) && k < |v.known|
    ensures Describes(Extended(v, k, partial), events + [JsonDelta(v.known[k].index, partial)])
  {
    var e := JsonDelta(v.known[k].index, partial);
    var starts, w := StartsOf(events), Extended(v, k, partial);
    OneMore(events, e);
    forall j | 0 <= j < |starts|
      ensures w.known[j] == Open(starts[j].index, CallOf(events + [e], starts[j]))
    {
      OneMoreArgs(events, e, starts[j].index);
      assert j < k ==> v.known[j].index != v.known[k].index;
      assert k < j ==> v.known[k].index != v.known[j].index;
    }
  }

  lemma FreshUnknown(v: View, events: seq<Event>, index: int, id: string)
    requires Describes(v, events) && Fresh(StartsOf(events), index, id)
    ensures Unknown(v, id) && forall k :: 0 <= k < |v.known| ==> v.known[k].index != index
  {
    assert forall k :: 0 <= k < |v.known| ==>
      v.known[k].index == StartsOf(events)[k].index && v.known[k].call.id == StartsOf(events)[k].id;
  }

  lemma OneStep(v: View, before: seq<Event>, p: Producer, e: Event) returns (w: View)
    requires WellFormed(before + [e]) && Describes(v, before) && InStep(v, p)
    ensures Describes(w, before + [e]) && InStep(w, Produce(p, e))
  {
    assert (before + [e])[..|before + [e]| - 1] == before;
    match e {
      case UseStart(index, id, name) =>
        FreshUnknown(v, before, index, id);
        DescribesStart(v, before, index, id, name);
        StartStep(v, p, index, id, name);
        w := Started(v, index, id, name);
      case JsonDelta(index, partial) =>
        var k :| 0 <= k < |StartsOf(before)| && StartsOf(before)[k].index == index;
        DescribesJson(v, before, k, partial);
        JsonStep(v, p, k, partial);
        w := Extended(v, k, partial);
      case TextDelta(index, text) =>
        DescribesText(v, before, e);
        TextStep(v, p, index, text);
        w := v.(text := v.text + text);
      case Ignored =>
        DescribesText(v, before, e);
        assert v.text + "" == v.text;
        w := v;
      case _ =>
    }
  }

  // Producer and consumer stay in step with what the events say.
  lemma {:induction false} StaysInStep(events: seq<Event>) returns (v: View)
    requires WellFormed(events)
    ensures Describes(v, events) && InStep(v, ProduceAll(events))
  {
    if events == [] {
      v := View([], "");
    } else {
      var before, e := events[..|events| - 1], events[|events| - 1];
      assert before + [e] == events;
      var u := StaysInStep(before);
      v := OneStep(u, before, ProduceAll(before), e);
    }
  }

  function CallsOf(events: seq<Event>, starts: seq<Start>): (r: seq<ToolCall>)
    ensures |r| == |starts| && forall k :: 0 <= k < |starts| ==> r[k] == CallOf(events, starts[k])
  {
    if starts == [] then [] else [CallOf(events, starts[0])] + CallsOf(events, starts[1..])
  }

  // The reply a well-formed event sequence amounts to.
  function ReplyOf(events: seq<Event>): Message {
    AssistantMessage(TextOf(events), CallsOf(events, StartsOf(events)))
  }

  // The two machines together assemble exactly what the events say.
  lemma AssembledReply(events: seq<Event>)
    requires WellFormed(events)
    ensures Assembled(ConsumeAll(ProduceAll(events).sent)) == ReplyOf(events)
  {
    var v := StaysInStep(events);
    var c := ConsumeAll(ProduceAll(events).sent);
    var calls := CallsInOrder(c.calls, c.order);
    var expected := CallsOf(events, StartsOf(events));
    forall k | 0 <= k < |expected|
      ensures calls[k] == expected[k]
    {
      assert c.order[k] == v.known[k].call.id && v.known[k].call == CallOf(events, StartsOf(events)[k]);
    }
    assert calls == expected;
  }

  // ---------- what the sink hears of a whole round ----------

  lemma CountOne(events: seq<Emitted>, e: Emitted, id: string)
    ensures CountStarts(events + [e], id) == CountStarts(events, id) + (if e.CallStart? && e.id == id then 1 else 0)
    ensures CountEnds(events + [e], id) == CountEnds(events, id) + (if e.CallEnd? && e.id == id then 1 else 0)
  {
    assert (events + [e])[..|events + [e]| - 1] == events;
  }

  function Named(calls: seq<ToolCall>, id: string): nat {
    if calls == [] then 0 else (if calls[0].id == id then 1 else 0) + Named(calls[1..], id)
  }

  lemma EndsStep(events: seq<Emitted>, calls: seq<ToolCall>)
    requires calls != []
    ensures events + Ends(calls) == events + [CallEnd(calls[0].id, calls[0].name, calls[0].arguments)] +
            Ends(calls[1..])
  {
  }

  lemma {:induction false} CountAllEnds(events: seq<Emitted>, calls: seq<ToolCall>, id: string)
    ensures CountStarts(events + Ends(calls), id) == CountStarts(events, id)
    ensures CountEnds(events + Ends(calls), id) == CountEnds(events, id) + Named(calls, id)
    decreases |calls|
  {
    if calls == [] {
      assert events + Ends(calls) == events;
    } else {
      var e := CallEnd(calls[0].id, calls[0].name, calls[0].arguments);
      EndsStep(events, calls);
      CountOne(events, e, id);
      CountAllEnds(events + [e], calls[1..], id);
    }
  }

  lemma {:induction false} HearAllEnds(events: seq<Emitted>, calls: seq<ToolCall>)
    requires ArgsAfterStart(events)
    ensures TextHeard(events + Ends(calls)) == TextHeard(events) && ArgsAfterStart(events + Ends(calls))
    decreases |calls|
  {
    if calls == [] {
      assert events + Ends(calls) == events;
    } else {
      var e := CallEnd(calls[0].id, calls[0].name, calls[0].arguments);
      EndsStep(events, calls);
      assert (events + [e])[..|events + [e]| - 1] == events;
      HearAllEnds(events + [e], calls[1..]);
    }
  }

  lemma {:induction false} NotNamed(calls: seq<ToolCall>, id: string)
    requires forall i :: 0 <= i < |calls| ==> calls[i].id != id
    ensures Named(calls, id) == 0
  {
    if calls != [] {
      NotNamed(calls[1..], id);
    }
  }

  lemma {:induction false} NamedOnce(calls: seq<ToolCall>, k: nat)
    requires k < |calls| && forall i, j :: 0 <= i < j < |calls| ==> calls[i].id != calls[j].id
    ensures Named(calls, calls[k].id) == 1
  {
    if k == 0 {
      NotNamed(calls[1..], calls[0].id);
    } else {
      assert calls[0].id != calls[k].id;
      NamedOnce(calls[1..], k - 1);
    }
  }

  // All the sink hears of a round.
  function Heard(events: seq<Event>): seq<Emitted> {
    ConsumeAll(ProduceAll(events).sent).events + Ends(ReplyOf(events).toolCalls)
  }

  // The text told adds up to the reply, and arguments follow their start.
  lemma HeardText(events: seq<Event>)
    requires WellFormed(events)
    ensures TextHeard(Heard(events)) == TextOf(events) && ArgsAfterStart(Heard(events))
  {
    var v := StaysInStep(events);
    HearAllEnds(ConsumeAll(ProduceAll(events).sent).events, ReplyOf(events).toolCalls);
  }

  // Every call is told to start once if it has a name, never if it has none, and to end once.
  lemma HeardOnce(events: seq<Event>, k: nat)
    requires WellFormed(events) && k < |StartsOf(events)|
    ensures CountStarts(Heard(events), StartsOf(events)[k].id) == StartsDue(StartsOf(events)[k].name)
    ensures CountEnds(Heard(events), StartsOf(events)[k].id) == 1
  {
    var v := StaysInStep(events);
    var calls, id := ReplyOf(events).toolCalls, StartsOf(events)[k].id;
    CountAllEnds(ConsumeAll(ProduceAll(events).sent).events, calls, id);
    CallsKnown(events, v);
    NamedOnce(calls, k);
    ToldOnce(v, ConsumeAll(ProduceAll(events).sent).events, k);
  }

  lemma CallsKnown(events: seq<Event>, v: View)
    requires Describes(v, events) && Distinct(v.known)
    ensures var calls := ReplyOf(events).toolCalls;
            && |calls| == |v.known|
            && (forall j :: 0 <= j < |calls| ==>
                  calls[j] == v.known[j].call && calls[j].id == StartsOf(events)[j].id &&
                  calls[j].name == StartsOf(events)[j].name)
            && forall i, j :: 0 <= i < j < |calls| ==> calls[i].id != calls[j].id
  {
    var calls := ReplyOf(events).toolCalls;
    assert forall j :: 0 <= j < |calls| ==> calls[j] == v.known[j].call;
  }

  lemma ToldOnce(v: View, events: seq<Emitted>, k: nat)
    requires Told(v, events) && k < |v.known|
    ensures CountStarts(events, v.known[k].call.id) == StartsDue(v.known[k].call.name)
    ensures CountEnds(events, v.known[k].call.id) == 0
  {
  }

  lemma {:induction false} NoArgsUnstarted(events: seq<Emitted>, id: string)
    requires ArgsAfterStart(events) && CountStarts(events, id) == 0
    ensures forall i :: 0 <= i < |events| ==> !(events[i].CallArgs? && events[i].id == id)
  {
    if events != [] {
      NoArgsUnstarted(events[..|events| - 1], id);
    }
  }

  // Of a call without a name no arguments are told either.
  lemma UnnamedIsSilent(events: seq<Event>, k: nat)
    requires WellFormed(events) && k < |StartsOf(events)| && StartsOf(events)[k].name == ""
    ensures var id := StartsOf(events)[k].id;
            forall e :: e in Heard(events) && (e.CallStart? || e.CallArgs?) ==> e.id != id
  {
    var id := StartsOf(events)[k].id;
    HeardOnce(events, k);
    HeardText(events);
    NoArgsUnstarted(Heard(events), id);
    NoStart(Heard(events), id);
  }

  lemma {:induction false} NoStart(events: seq<Emitted>, id: string)
    requires CountStarts(events, id) == 0
    ensures forall i :: 0 <= i < |events| ==> !(events[i].CallStart? && events[i].id == id)
  {
    if events != [] {
      NoStart(events[..|events| - 1], id);
    }
  }

  lemma HeardNoOther(events: seq<Event>, id: string)
    requires WellFormed(events) && forall k :: 0 <= k < |StartsOf(events)| ==> StartsOf(events)[k].id != id
    ensures CountStarts(Heard(events), id) == 0 && CountEnds(Heard(events), id) == 0
  {
    var v := StaysInStep(events);
    var calls := ReplyOf(events).toolCalls;
    CountAllEnds(ConsumeAll(ProduceAll(events).sent).events, calls, id);
    CallsKnown(events, v);
    NotNamed(calls, id);
    ToldNever(v, ConsumeAll(ProduceAll(events).sent).events, id);
  }

  lemma ToldNever(v: View, events: seq<Emitted>, id: string)
    requires Told(v, events) && Unknown(v, id)
    ensures CountStarts(events, id) == 0 && CountEnds(events, id) == 0
  {
  }

  // ---------- the round, word by word ----------

  // What the sink is to hear of one more event.
  function Line(before: seq<Event>, e: Event): seq<Emitted> {
    match e
    case TextDelta(_, text) => if text == "" then [] else [Text(text)]
    case UseStart(_, id, name) => if name == "" then [] else [CallStart(id, name)]
    case JsonDelta(index, partial) => ArgsLine(StartsOf(before), index, ArgsOf(before, index) + partial)
    case _ => []
  }

  // The arguments so far, of a call that was told to start.
  function ArgsLine(starts: seq<Start>, index: int, args: string): seq<Emitted> {
    if starts == [] then []
    else
      var s := starts[|starts| - 1];
      if s.index != index then ArgsLine(starts[..|starts| - 1], index, args)
      else if s.name == "" || args == "" then []
      else [CallArgs(s.id, s.name, args)]
  }

  function Lines(events: seq<Event>): seq<Emitted> {
    if events == [] then []
    else Lines(events[..|events| - 1]) + Line(events[..|events| - 1], events[|events| - 1])
  }

  lemma {:induction false} ArgsLineIs(starts: seq<Start>, k: nat, args: string)
    requires k < |starts| && forall j :: 0 <= j < |starts| && j != k ==> starts[j].index != starts[k].index
    ensures ArgsLine(starts, starts[k].index, args) ==
            if starts[k].name == "" || args == "" then [] else [CallArgs(starts[k].id, starts[k].name, args)]
  {
    if k < |starts| - 1 {
      ArgsLineIs(starts[..|starts| - 1], k, args);
    }
  }

  lemma StartLine(v: View, before: seq<Event>, index: int, id: string, name: string)
    requires Describes(v, before) && InStep(v, ProduceAll(before)) && id != "" && Fresh(StartsOf(before), index, id)
    ensures var e := UseStart(index, id, name);
            ConsumeAll(Produce(ProduceAll(before), e).sent).events ==
            ConsumeAll(ProduceAll(before).sent).events + Line(before, e)
  {
    var p := ProduceAll(before);
    FreshUnknown(v, before, index, id);
    SendOne(p.sent, CallDelta(ToolCall(id, name, "")));
    ConsumerStart(v, ConsumeAll(p.sent), index, id, name);
  }

  lemma JsonLine(v: View, before: seq<Event>, k: nat, partial: string)
    requires Describes(v, before) && InStep(v, ProduceAll(before)) && k < |StartsOf(before)|
    ensures var e := JsonDelta(StartsOf(before)[k].index, partial);
            ConsumeAll(Produce(ProduceAll(before), e).sent).events ==
            ConsumeAll(ProduceAll(before).sent).events + Line(before, e)
  {
    var p, starts := ProduceAll(before), StartsOf(before);
    var c, m := ConsumeAll(p.sent), More(v.known[k].call, partial);
    assert v.known[k] == Open(starts[k].index, CallOf(before, starts[k]));
    OnlyStart(v, before, k);
    ArgsLineIs(starts, k, m.arguments);
    ProducerArgs(v, p, k, partial);
    SendOne(p.sent, CallDelta(m));
    ConsumerArgs(v, c, k, partial);
    assert c.events + [] == c.events;
  }

  lemma OneLine(v: View, before: seq<Event>, e: Event)
    requires WellFormed(before + [e]) && Describes(v, before) && InStep(v, ProduceAll(before))
    ensures ConsumeAll(ProduceAll(before + [e]).sent).events ==
            ConsumeAll(ProduceAll(before).sent).events + Line(before, e)
  {
    var p := ProduceAll(before);
    var c := ConsumeAll(p.sent);
    assert (before + [e])[..|before + [e]| - 1] == before;
    ProduceOne(before, e);
    match e {
      case UseStart(index, id, name) => StartLine(v, before, index, id, name);
      case JsonDelta(index, partial) =>
        var k :| 0 <= k < |StartsOf(before)| && StartsOf(before)[k].index == index;
        JsonLine(v, before, k, partial);
      case TextDelta(_, text) =>
        if text != "" {
          SendOne(p.sent, Delta(text));
        } else {
          assert c.events + [] == c.events;
        }
      case Ignored => assert c.events + [] == c.events;
      case _ =>
    }
  }

  lemma OnlyStart(v: View, events: seq<Event>, k: nat)
    requires Describes(v, events) && Distinct(v.known) && k < |v.known|
    ensures var starts := StartsOf(events);
            forall j :: 0 <= j < |starts| && j != k ==> starts[j].index != starts[k].index
  {
    var starts := StartsOf(events);
    forall j | 0 <= j < |starts| && j != k
      ensures starts[j].index != starts[k].index
    {
      assert v.known[j].index == starts[j].index && v.known[k].index == starts[k].index;
      assert j < k ==> v.known[j].index != v.known[k].index;
    }
  }

  // The sink hears of every event exactly its line, in order, and then one end per call.
  lemma {:induction false} HeardLines(events: seq<Event>)
    requires WellFormed(events)
    ensures Heard(events) == Lines(events) + Ends(ReplyOf(events).toolCalls)
  {
    BodyHeard(events);
  }

  lemma {:induction false} BodyHeard(events: seq<Event>)
    requires WellFormed(events)
    ensures ConsumeAll(ProduceAll(events).sent).events == Lines(events)
  {
    if events != [] {
      var before, e := events[..|events| - 1], events[|events| - 1];
      assert before + [e] == events;
      BodyHeard(before);
      var v := StaysInStep(before);
      OneLine(v, before, e);
    }
  }

  // The arguments told of one id.
  function ArgsHeard(heard: seq<Emitted>, id: string): seq<Emitted> {
    if heard == [] then []
    else
      ArgsHeard(heard[..|heard| - 1], id) +
      (var e := heard[|heard| - 1]; if e.CallArgs? && e.id == id then [e] else [])
  }

  // The fragments of one block joined, after each of them, from the first that is not empty.
  function RunningArgs(events: seq<Event>, index: int): seq<string> {
    if events == [] then []
    else
      var e := events[|events| - 1];
      RunningArgs(events[..|events| - 1], index) +
      if e.JsonDelta? && e.index == index && ArgsOf(events, index) != "" then [ArgsOf(events, index)] else []
  }

  function AsArgs(id: string, name: string, joins: seq<string>): (r: seq<Emitted>)
    ensures |r| == |joins| && forall k :: 0 <= k < |joins| ==> r[k] == CallArgs(id, name, joins[k])
  {
    seq(|joins|, k requires 0 <= k < |joins| => CallArgs(id, name, joins[k]))
  }

  lemma {:induction false} ArgsHeardAppend(a: seq<Emitted>, b: seq<Emitted>, id: string)
    ensures ArgsHeard(a + b, id) == ArgsHeard(a, id) + ArgsHeard(b, id)
  {
    if b == [] {
      assert a + b == a;
    } else {
      var last := |b| - 1;
      assert (a + b)[..|a + b| - 1] == a + b[..last] && (a + b)[|a + b| - 1] == b[last];
      ArgsHeardAppend(a, b[..last], id);
    }
  }

  lemma {:induction false} NoArgsHeard(heard: seq<Emitted>, id: string)
    requires forall i :: 0 <= i < |heard| ==> heard[i].CallArgs? ==> heard[i].id != id
    ensures ArgsHeard(heard, id) == []
  {
    if heard != [] {
      NoArgsHeard(heard[..|heard| - 1], id);
    }
  }

  lemma ArgsOfLine(v: View, before: seq<Event>, e: Event, s: Start)
    requires WellFormed(before + [e]) && Describes(v, before) && Distinct(v.known)
    requires s in StartsOf(before + [e])
    ensures ArgsHeard(Line(before, e), s.id) ==
            if e.JsonDelta? && e.index == s.index && s.name != "" && ArgsOf(before + [e], s.index) != ""
              then [CallArgs(s.id, s.name, ArgsOf(before + [e], s.index))] else []
  {
    assert (before + [e])[..|before + [e]| - 1] == before;
    OneMore(before, e);
    OneMoreArgs(before, e, s.index);
    var line := Line(before, e);
    if e.JsonDelta? {
      var starts := StartsOf(before);
      var k :| 0 <= k < |starts| && starts[k].index == e.index;
      OnlyStart(v, before, k);
      ArgsLineIs(starts, k, ArgsOf(before, e.index) + e.partial);
      var l :| 0 <= l < |starts| && starts[l] == s;
      OnlyStart(v, before, l);
      assert v.known[k].call.id == starts[k].id && v.known[l].call.id == s.id;
      assert k < l ==> v.known[k].call.id != v.known[l].call.id;
      assert l < k ==> v.known[l].call.id != v.known[k].call.id;
      assert line == [] || line == [line[0]];
      assert line != [] ==> line[..0] == [];
    } else {
      NoArgsHeard(line, s.id);
    }
  }

  lemma {:induction false} LineArgs(events: seq<Event>, s: Start)
    requires WellFormed(events) && s in StartsOf(events)
    ensures ArgsHeard(Lines(events), s.id) ==
            AsArgs(s.id, s.name, if s.name == "" then [] else RunningArgs(events, s.index))
  {
    var before, e := events[..|events| - 1], events[|events| - 1];
    assert before + [e] == events;
    var v := StaysInStep(before);
    OneMore(before, e);
    if s in StartsOf(before) {
      LineArgs(before, s);
    } else {
      NotYetHeard(v, before, s, e);
    }
    ArgsOfLine(v, before, e, s);
    LineArgsMore(before, e, s);
  }

  lemma AsArgsMore(id: string, name: string, joins: seq<string>, args: string)
    ensures AsArgs(id, name, joins + [args]) == AsArgs(id, name, joins) + [CallArgs(id, name, args)]
    ensures AsArgs(id, name, joins + []) == AsArgs(id, name, joins) + []
  {
    assert joins + [] == joins && AsArgs(id, name, joins) + [] == AsArgs(id, name, joins);
  }

  lemma LineArgsMore(before: seq<Event>, e: Event, s: Start)
    requires ArgsHeard(Lines(before), s.id) ==
             AsArgs(s.id, s.name, if s.name == "" then [] else RunningArgs(before, s.index))
    requires ArgsHeard(Line(before, e), s.id) ==
             if e.JsonDelta? && e.index == s.index && s.name != "" && ArgsOf(before + [e], s.index) != ""
               then [CallArgs(s.id, s.name, ArgsOf(before + [e], s.index))] else []
    ensures ArgsHeard(Lines(before + [e]), s.id) ==
            AsArgs(s.id, s.name, if s.name == "" then [] else RunningArgs(before + [e], s.index))
  {
    var events, args := before + [e], ArgsOf(before + [e], s.index);
    assert events[..|events| - 1] == before;
    assert Lines(events) == Lines(before) + Line(before, e);
    ArgsHeardAppend(Lines(before), Line(before, e), s.id);
    var joins := RunningArgs(before, s.index);
    assert RunningArgs(events, s.index) ==
           joins + if e.JsonDelta? && e.index == s.index && args != "" then [args] else [];
    AsArgsMore(s.id, s.name, if s.name == "" then [] else joins, args);
    assert s.name == "" ==> [] + ArgsHeard(Line(before, e), s.id) == [];
  }

  // Before its start a call has no fragments and nothing is told of it.
  lemma NotYetHeard(v: View, before: seq<Event>, s: Start, e: Event)
    requires WellFormed(before + [e]) && WellFormed(before) && Describes(v, before)
    requires e == UseStart(s.index, s.id, s.name)
    ensures ArgsHeard(Lines(before), s.id) == [] && RunningArgs(before, s.index) == []
  {
    assert (before + [e])[..|before + [e]| - 1] == before;
    LinesOfOthers(before, s.id);
    NoArgsHeard(Lines(before), s.id);
    NoJoins(before, s.index);
  }

  lemma {:induction false} LinesOfOthers(events: seq<Event>, id: string)
    requires WellFormed(events) && forall k :: 0 <= k < |StartsOf(events)| ==> StartsOf(events)[k].id != id
    ensures forall i :: 0 <= i < |Lines(events)| ==> Lines(events)[i].CallArgs? ==> Lines(events)[i].id != id
  {
    if events != [] {
      var before, e := events[..|events| - 1], events[|events| - 1];
      assert before + [e] == events;
      OneMore(before, e);
      assert forall k :: 0 <= k < |StartsOf(before)| ==> StartsOf(events)[k] == StartsOf(before)[k];
      LinesOfOthers(before, id);
      if e.JsonDelta? {
        ArgsLineOfStart(StartsOf(before), e.index, ArgsOf(before, e.index) + e.partial, id);
      }
    }
  }

  lemma {:induction false} ArgsLineOfStart(starts: seq<Start>, index: int, args: string, id: string)
    requires forall k :: 0 <= k < |starts| ==> starts[k].id != id
    ensures forall i :: 0 <= i < |ArgsLine(starts, index, args)| ==>
              ArgsLine(starts, index, args)[i].CallArgs? && ArgsLine(starts, index, args)[i].id != id
  {
    if starts != [] {
      ArgsLineOfStart(starts[..|starts| - 1], index, args, id);
    }
  }

  lemma {:induction false} NoJoins(events: seq<Event>, index: int)
    requires WellFormed(events) && forall k :: 0 <= k < |StartsOf(events)| ==> StartsOf(events)[k].index != index
    ensures RunningArgs(events, index) == []
  {
    if events != [] {
      var before, e := events[..|events| - 1], events[|events| - 1];
      assert before + [e] == events;
      OneMore(before, e);
      assert forall k :: 0 <= k < |StartsOf(before)| ==> StartsOf(events)[k] == StartsOf(before)[k];
      NoJoins(before, index);
    }
  }

  lemma {:induction false} EndsHaveNoArgs(calls: seq<ToolCall>, id: string)
    ensures ArgsHeard(Ends(calls), id) == []
  {
    NoArgsHeard(Ends(calls), id);
  }

  // Of a named call the sink hears its arguments after every fragment that leaves any, each
  // time all of them so far, under the call's id and name, and nothing else.
  lemma HeardArgs(events: seq<Event>, k: nat)
    requires WellFormed(events) && k < |StartsOf(events)|
    ensures var s := StartsOf(events)[k];
            ArgsHeard(Heard(events), s.id) ==
            AsArgs(s.id, s.name, if s.name == "" then [] else RunningArgs(events, s.index))
  {
    var s := StartsOf(events)[k];
    HeardLines(events);
    LineArgs(events, s);
    ArgsHeardAppend(Lines(events), Ends(ReplyOf(events).toolCalls), s.id);
    EndsHaveNoArgs(ReplyOf(events).toolCalls, s.id);
  }

  // ---------- snapshots of any provider ----------

  // A text is added and told unless it is empty.
  lemma TextMeans(c: Consumer, text: string)
    ensures Consume(c, Delta("")) == c
    ensures text != "" ==>
              Consume(c, Delta(text)) == Consumer(c.content + text, c.calls, c.order, c.events + [Text(text)])
  {
  }

  // Chunk i is a snapshot of the call with this id.
  ghost predicate SnapAt(chunks: seq<Chunk>, i: int, id: string) {
    0 <= i < |chunks| && chunks[i].CallDelta? && chunks[i].call.id == id
  }

  ghost predicate FirstSnap(chunks: seq<Chunk>, i: int, id: string) {
    SnapAt(chunks, i, id) && forall j :: 0 <= j < i ==> !SnapAt(chunks, j, id)
  }

  ghost predicate LastSnap(chunks: seq<Chunk>, i: int, id: string) {
    SnapAt(chunks, i, id) && forall j :: i < j < |chunks| ==> !SnapAt(chunks, j, id)
  }

  ghost predicate NamedSnap(chunks: seq<Chunk>, i: int, id: string) {
    SnapAt(chunks, i, id) && chunks[i].call.name != ""
  }

  ghost predicate LastNamed(chunks: seq<Chunk>, i: int, id: string) {
    NamedSnap(chunks, i, id) && forall j :: i < j < |chunks| ==> !NamedSnap(chunks, j, id)
  }

  // The call has the arguments of its last snapshot and the name of the last that has one.
  ghost predicate SnapsMake(chunks: seq<Chunk>, id: string, call: ToolCall) {
    && call.id == id
    && (exists i :: LastSnap(chunks, i, id) && call.arguments == chunks[i].call.arguments)
    && if call.name == "" then forall i :: 0 <= i < |chunks| ==> !NamedSnap(chunks, i, id)
       else exists i :: LastNamed(chunks, i, id) && call.name == chunks[i].call.name
  }

  lemma SnapsStay(chunks: seq<Chunk>, c: Chunk, id: string, call: ToolCall)
    requires SnapsMake(chunks, id, call) && !(c.CallDelta? && c.call.id == id)
    ensures SnapsMake(chunks + [c], id, call)
  {
    var more := chunks + [c];
    var i :| LastSnap(chunks, i, id) && call.arguments == chunks[i].call.arguments;
    SnapKept(chunks, c, id);
    assert LastSnap(more, i, id);
    if call.name != "" {
      var k :| LastNamed(chunks, k, id) && call.name == chunks[k].call.name;
      assert LastNamed(more, k, id);
    }
  }

  lemma SnapKept(chunks: seq<Chunk>, c: Chunk, id: string)
    ensures forall j :: j != |chunks| ==> (SnapAt(chunks + [c], j, id) <==> SnapAt(chunks, j, id))
    ensures forall j :: j != |chunks| ==> (NamedSnap(chunks + [c], j, id) <==> NamedSnap(chunks, j, id))
    ensures SnapAt(chunks + [c], |chunks|, id) <==> c.CallDelta? && c.call.id == id
  {
  }

  lemma SnapsChange(chunks: seq<Chunk>, snapshot: ToolCall, had: ToolCall)
    requires snapshot.id != ""
    requires SnapsMake(chunks, snapshot.id, had) ||
             (had.name == "" && forall j :: 0 <= j < |chunks| ==> !SnapAt(chunks, j, snapshot.id))
    ensures SnapsMake(chunks + [CallDelta(snapshot)], snapshot.id, Merge(had, snapshot))
  {
    var more, id := chunks + [CallDelta(snapshot)], snapshot.id;
    SnapKept(chunks, CallDelta(snapshot), id);
    assert LastSnap(more, |chunks|, id);
    if snapshot.name != "" {
      assert LastNamed(more, |chunks|, id);
    } else if had.name != "" {
      var k :| LastNamed(chunks, k, id) && had.name == chunks[k].call.name;
      assert LastNamed(more, k, id);
    }
  }

  // The calls in the order of their first snapshots, which stand at these positions.
  ghost predicate InOrderOf(chunks: seq<Chunk>, order: seq<string>, at: seq<nat>) {
    && |at| == |order|
    && (forall k, l :: 0 <= k < l < |at| ==> at[k] < at[l])
    && (forall k :: 0 <= k < |at| ==> FirstSnap(chunks, at[k], order[k]))
    && forall i :: 0 <= i < |chunks| && chunks[i].CallDelta? ==> chunks[i].call.id in order
  }

  ghost predicate AllMade(chunks: seq<Chunk>, c: Consumer) {
    && (forall key :: key in c.calls <==> key in c.order)
    && forall key :: key in c.calls ==> SnapsMake(chunks, key, c.calls[key].call)
  }

  lemma OrderMore(chunks: seq<Chunk>, order: seq<string>, at: seq<nat>, c: Chunk) returns (at': seq<nat>)
    requires InOrderOf(chunks, order, at)
    ensures InOrderOf(chunks + [c], if c.CallDelta? && c.call.id !in order then order + [c.call.id] else order, at')
  {
    var more := chunks + [c];
    var isNew := c.CallDelta? && c.call.id !in order;
    at' := if isNew then at + [|chunks|] else at;
    forall k | 0 <= k < |at|
      ensures FirstSnap(more, at[k], order[k])
    {
      SnapKept(chunks, c, order[k]);
    }
    if isNew {
      SnapKept(chunks, c, c.call.id);
      forall j | 0 <= j < |chunks|
        ensures !SnapAt(more, j, c.call.id)
      {
      }
    }
  }

  lemma MadeMore(chunks: seq<Chunk>, c: Consumer, snapshot: ToolCall)
    requires AllMade(chunks, c) && snapshot.id != ""
    requires forall i :: 0 <= i < |chunks| && chunks[i].CallDelta? ==> chunks[i].call.id in c.order
    ensures AllMade(chunks + [CallDelta(snapshot)], TakeCall(c, snapshot))
  {
    var d := TakeCall(c, snapshot);
    var had := if snapshot.id in c.calls then c.calls[snapshot.id].call else ToolCall("", "", "");
    SnapsChange(chunks, snapshot, had);
    forall key | key in d.calls
      ensures SnapsMake(chunks + [CallDelta(snapshot)], key, d.calls[key].call)
    {
      if key != snapshot.id {
        SnapsStay(chunks, CallDelta(snapshot), key, c.calls[key].call);
      }
    }
  }

  lemma MadeStay(chunks: seq<Chunk>, c: Consumer, chunk: Chunk)
    requires AllMade(chunks, c) && !chunk.CallDelta?
    ensures AllMade(chunks + [chunk], c)
  {
    forall key | key in c.calls
      ensures SnapsMake(chunks + [chunk], key, c.calls[key].call)
    {
      SnapsStay(chunks, chunk, key, c.calls[key].call);
    }
  }

  // For whatever chunks with ids: one call for each id, in the order of the first
  // snapshots, with the arguments of the last and the name of the last that has one.
  lemma {:induction false} SnapshotsMean(chunks: seq<Chunk>) returns (at: seq<nat>)
    requires forall i :: 0 <= i < |chunks| && chunks[i].CallDelta? ==> chunks[i].call.id != ""
    ensures var c := ConsumeAll(chunks);
            && InOrderOf(chunks, c.order, at) && AllMade(chunks, c)
            && Assembled(c).toolCalls == CallsInOrder(c.calls, c.order)
  {
    at := [];
    if chunks != [] {
      var before, last := chunks[..|chunks| - 1], chunks[|chunks| - 1];
      at := SnapshotsMean(before);
      var c := ConsumeAll(before);
      assert chunks == before + [last];
      at := OrderMore(before, c.order, at, last);
      if last.CallDelta? {
        MadeMore(before, c, last.call);
      } else {
        MadeStay(before, c, last);
      }
    }
  }

  // ---------- snapshots without an id ----------

  // The number a decimal text denotes.
  function ValueOf(text: string): int {
    if text == "" then 0 else 10 * ValueOf(text[..|text| - 1]) + (text[|text| - 1] as int - '0' as int)
  }

  lemma {:induction false} DecimalValue(n: nat)
    ensures ValueOf(Decimal(n)) == n
  {
    if n >= 10 {
      DecimalValue(n / 10);
      assert Decimal(n)[..|Decimal(n)| - 1] == Decimal(n / 10);
    } else {
      assert Decimal(n)[..0] == "";
    }
  }

  lemma AnonymousKeys(i: nat, j: nat)
    requires "anon-" + Decimal(i) == "anon-" + Decimal(j)
    ensures i == j
  {
    assert ("anon-" + Decimal(i))[5..] == Decimal(i) && ("anon-" + Decimal(j))[5..] == Decimal(j);
    DecimalValue(i);
    DecimalValue(j);
  }

  ghost predicate AnonymousAt(c: Consumer, i: nat, snapshot: ToolCall) {
    && i < |c.order| && c.order[i] == "anon-" + Decimal(i)
    && c.order[i] in c.calls && c.calls[c.order[i]].call == snapshot
  }

  ghost predicate AllAnonymous(c: Consumer, snapshots: seq<ToolCall>) {
    && c.content == "" && |c.order| == |snapshots| && (forall key :: key in c.calls ==> key in c.order)
    && forall i :: 0 <= i < |snapshots| ==> AnonymousAt(c, i, snapshots[i])
  }

  lemma NewKey(c: Consumer, snapshots: seq<ToolCall>)
    requires AllAnonymous(c, snapshots)
    ensures "anon-" + Decimal(|snapshots|) !in c.calls
  {
    var key := "anon-" + Decimal(|snapshots|);
    forall i | 0 <= i < |snapshots|
      ensures c.order[i] != key
    {
      assert AnonymousAt(c, i, snapshots[i]);
      if c.order[i] == key {
        AnonymousKeys(i, |snapshots|);
      }
    }
  }

  lemma AnonymousMore(c: Consumer, snapshots: seq<ToolCall>, snapshot: ToolCall)
    requires AllAnonymous(c, snapshots) && snapshot.id == ""
    ensures AllAnonymous(TakeCall(c, snapshot), snapshots + [snapshot])
  {
    var d, n := TakeCall(c, snapshot), |snapshots|;
    NewKey(c, snapshots);
    assert d.order == c.order + ["anon-" + Decimal(n)];
    assert AnonymousAt(d, n, snapshot);
    forall i | 0 <= i < n
      ensures AnonymousAt(d, i, snapshots[i])
    {
      assert AnonymousAt(c, i, snapshots[i]) && d.order[i] == c.order[i];
    }
  }

  function AsChunks(snapshots: seq<ToolCall>): seq<Chunk> {
    if snapshots == [] then []
    else AsChunks(snapshots[..|snapshots| - 1]) + [CallDelta(snapshots[|snapshots| - 1])]
  }

  // Snapshots without an id are calls of their own, each as it came.
  lemma {:induction false} Anonymous(snapshots: seq<ToolCall>)
    requires forall i :: 0 <= i < |snapshots| ==> snapshots[i].id == ""
    ensures AllAnonymous(ConsumeAll(AsChunks(snapshots)), snapshots)
  {
    if snapshots != [] {
      var before, last := snapshots[..|snapshots| - 1], snapshots[|snapshots| - 1];
      var c := ConsumeAll(AsChunks(before));
      assert snapshots == before + [last];
      Anonymous(before);
      SendOne(AsChunks(before), CallDelta(last));
      assert ConsumeAll(AsChunks(snapshots)) == TakeCall(c, last);
      AnonymousMore(c, before, last);
    }
  }

  lemma AnonymousReply(snapshots: seq<ToolCall>)
    requires forall i :: 0 <= i < |snapshots| ==> snapshots[i].id == ""
    ensures Assembled(ConsumeAll(AsChunks(snapshots))) == AssistantMessage("", snapshots)
  {
    Anonymous(snapshots);
    var c := ConsumeAll(AsChunks(snapshots));
    var calls := CallsInOrder(c.calls, c.order);
    forall i | 0 <= i < |snapshots|
      ensures calls[i] == snapshots[i]
    {
      assert AnonymousAt(c, i, snapshots[i]);
    }
    assert calls == snapshots;
  }

  // A snapshot without an id is a new call exactly if no call has the id it gets; else it
  // becomes the latest snapshot of that call.
  lemma AnonymousIsNew(c: Consumer, snapshot: ToolCall)
    requires snapshot.id == ""
    ensures var key, d := "anon-" + Decimal(|c.order|), TakeCall(c, snapshot);
            && (key !in c.calls <==> d.order == c.order + [key])
            && (key in c.calls ==>
                 && d.order == c.order
                 && d.calls[key].call.id == c.calls[key].call.id && d.calls[key].call.arguments == snapshot.arguments)
  {
    var key := "anon-" + Decimal(|c.order|);
    assert |c.order + [key]| != |c.order|;
  }

  // ---------- from the body to the consumer ----------

  lemma BodyThenEnd(body: seq<Chunk>, last: Chunk)
    requires BodyOnly(body) && (last.Finished? || last.Failed?)
    ensures BodyLength(body + [last]) == |body|
  {
    var all := body + [last];
    var n := BodyLength(all);
    assert all[|body|] == last;
    assert forall i :: 0 <= i < |body| ==> all[i] == body[i];
  }

  lemma ProduceOne(events: seq<Event>, e: Event)
    ensures ProduceAll(events + [e]) == Produce(ProduceAll(events), e)
  {
    assert (events + [e])[..|events + [e]| - 1] == events;
  }

  lemma StopEnds(events: seq<Event>, more: seq<Event>)
    requires more != [] && (more[0].MessageStop? || more[0].Malformed?) && !ProduceAll(events).over
    ensures ProduceAll(events + more).over
    ensures ProduceAll(events + more).sent ==
            ProduceAll(events).sent + [if more[0].MessageStop? then Finished else Failed]
  {
    var stop := events + [more[0]];
    ProduceOne(events, more[0]);
    assert (events + more)[..|stop|] == stop;
    OverStays(events + more, |stop|);
  }

  // A body that carries the events and then a stop event, or nothing, reaches the
  // consumer as exactly their chunks and one end.
  lemma BodyArrives(events: seq<Event>, more: seq<Event>, readFails: bool)
    requires WellFormed(events) && (more == [] || more[0].MessageStop?) && (more == [] ==> !readFails)
    ensures var chunks := Chunks(events + more, readFails);
            var n := BodyLength(chunks);
            && n < |chunks| && chunks[n].Finished? && chunks[..n] == ProduceAll(events).sent
            && Telling(chunks) == Heard(events)
  {
    var v := StaysInStep(events);
    var sent := ProduceAll(events).sent;
    if more == [] {
      assert events + more == events;
    } else {
      StopEnds(events, more);
    }
    BodyThenEnd(sent, Finished);
    assert Chunks(events + more, readFails) == sent + [Finished];
    AssembledReply(events);
    assert (sent + [Finished])[..|sent|] == sent;
  }

  // A body that breaks off, or holds an event that does not decode, ends with an error
  // behind the chunks of what came before.
  lemma BodyBreaks(events: seq<Event>, more: seq<Event>, readFails: bool)
    requires WellFormed(events) && (more == [] || more[0].Malformed?) && (more == [] ==> readFails)
    ensures var chunks := Chunks(events + more, readFails);
            var n := BodyLength(chunks);
            n < |chunks| && chunks[n].Failed? && chunks[..n] == ProduceAll(events).sent
  {
    var v := StaysInStep(events);
    var sent := ProduceAll(events).sent;
    if more == [] {
      assert events + more == events;
    } else {
      StopEnds(events, more);
    }
    BodyThenEnd(sent, Failed);
    assert Chunks(events + more, readFails) == sent + [Failed];
  }

  // ---------- the same reply, cut into fragments ----------

  // Tool calls have ids of their own; there may be blocks of any other kind.
  ghost predicate Plain(blocks: seq<Wire.Block>) {
    (forall i :: 0 <= i < |blocks| ==> blocks[i].ToolUse? ==> blocks[i].id != "") &&
    (forall i, j :: 0 <= i < j < |blocks| && blocks[i].ToolUse? && blocks[j].ToolUse? ==> blocks[i].id != blocks[j].id)
  }

  function TextIn(b: Wire.Block, text: string): string {
    if b.Text? then text else ""
  }

  function ArgsIn(b: Wire.Block, text: string): string {
    if b.ToolUse? then text else ""
  }

  // cuts[i] are the fragments of block i.
  ghost predicate Cuts(blocks: seq<Wire.Block>, cuts: seq<seq<string>>) {
    |cuts| == |blocks| && forall i :: 0 <= i < |blocks| ==> CutOf(blocks[i], cuts[i])
  }

  ghost predicate CutOf(b: Wire.Block, parts: seq<string>) {
    match b
    case Text(text) => Concat(parts) == text
    case ToolUse(_, _, input) => Concat(parts) == input
    case _ => true
  }

  function Fragment(index: int, b: Wire.Block, part: string): Event {
    match b
    case Text(_) => TextDelta(index, part)
    case ToolUse(_, _, _) => JsonDelta(index, part)
    case _ => Ignored
  }

  function Fragments(index: int, b: Wire.Block, parts: seq<string>): seq<Event> {
    if parts == [] then []
    else Fragments(index, b, parts[..|parts| - 1]) + [Fragment(index, b, parts[|parts| - 1])]
  }

  function Opening(index: int, b: Wire.Block): Event {
    if b.ToolUse? then UseStart(index, b.id, b.name) else Ignored
  }

  // One more block, after the events of the blocks before it.
  function WithBlock(events: seq<Event>, index: int, b: Wire.Block, parts: seq<string>): seq<Event> {
    events + [Opening(index, b)] + Fragments(index, b, parts) + [Ignored]
  }

  // The events of a streamed reply, block by block.
  function EventsFor(blocks: seq<Wire.Block>, cuts: seq<seq<string>>): seq<Event>
    requires |cuts| == |blocks|
  {
    if blocks == [] then []
    else
      var n := |blocks| - 1;
      WithBlock(EventsFor(blocks[..n], cuts[..n]), n, blocks[n], cuts[n])
  }

  lemma FragmentsStep(events: seq<Event>, index: int, b: Wire.Block, parts: seq<string>)
    requires parts != []
    ensures var n := |parts| - 1;
            && events + Fragments(index, b, parts) ==
              (events + Fragments(index, b, parts[..n])) + [Fragment(index, b, parts[n])]
            && Concat(parts) == Concat(parts[..n]) + parts[n]
  {
    ConcatLast(parts);
  }

  lemma FragmentAdds(events: seq<Event>, index: int, b: Wire.Block, part: string)
    requires WellFormed(events) && (b.ToolUse? ==> HasStarted(StartsOf(events), index))
    ensures var more := events + [Fragment(index, b, part)];
            WellFormed(more) && StartsOf(more) == StartsOf(events) &&
              TextOf(more) == TextOf(events) + TextIn(b, part)
  {
    var e := Fragment(index, b, part);
    assert (events + [e])[..|events + [e]| - 1] == events;
    OneMore(events, e);
  }

  // Fragments of a started block extend its text and start nothing.
  lemma {:induction false} FragmentsAdd(events: seq<Event>, index: int, b: Wire.Block, parts: seq<string>,
                                        more: seq<Event>)
    requires WellFormed(events) && (b.ToolUse? ==> HasStarted(StartsOf(events), index))
    requires more == events + Fragments(index, b, parts)
    ensures WellFormed(more) && StartsOf(more) == StartsOf(events)
    ensures TextOf(more) == TextOf(events) + TextIn(b, Concat(parts))
    decreases |parts|
  {
    if parts == [] {
      assert more == events;
    } else {
      var n := |parts| - 1;
      var before := events + Fragments(index, b, parts[..n]);
      FragmentsAdd(events, index, b, parts[..n], before);
      FragmentsStep(events, index, b, parts);
      assert more == before + [Fragment(index, b, parts[n])];
      FragmentAdds(before, index, b, parts[n]);
      Regroup(TextOf(events), TextIn(b, Concat(parts[..n])), TextIn(b, parts[n]));
    }
  }

  lemma {:induction false} FragmentsAddArgs(events: seq<Event>, index: int, b: Wire.Block, parts: seq<string>, i: int,
                                            more: seq<Event>)
    requires more == events + Fragments(index, b, parts)
    ensures ArgsOf(more, i) == ArgsOf(events, i) + (if i == index then ArgsIn(b, Concat(parts)) else "")
    decreases |parts|
  {
    if parts == [] {
      assert more == events;
    } else {
      var n := |parts| - 1;
      var before := events + Fragments(index, b, parts[..n]);
      FragmentsAddArgs(events, index, b, parts[..n], i, before);
      FragmentsStep(events, index, b, parts);
      var hit := i == index;
      assert ArgsOf(more, i) == ArgsOf(before, i) + (if hit then ArgsIn(b, parts[n]) else "") by {
        OneMoreArgs(before, Fragment(index, b, parts[n]), i);
      }
      Regroup(ArgsOf(events, i), if hit then ArgsIn(b, Concat(parts[..n])) else "",
              if hit then ArgsIn(b, parts[n]) else "");
    }
  }

  lemma OpeningAdds(events: seq<Event>, index: int, b: Wire.Block)
    requires WellFormed(events) && (b.ToolUse? ==> b.id != "" && Fresh(StartsOf(events), index, b.id))
    ensures var more := events + [Opening(index, b)];
            && WellFormed(more) && TextOf(more) == TextOf(events)
            && StartsOf(more) == StartsOf(events) + (if b.ToolUse? then [Start(index, b.id, b.name)] else [])
            && (b.ToolUse? ==> HasStarted(StartsOf(more), index))
  {
    var more := events + [Opening(index, b)];
    assert more[..|more| - 1] == events;
    OneMore(events, Opening(index, b));
    if b.ToolUse? {
      assert StartsOf(more)[|StartsOf(events)|].index == index;
    }
  }

  lemma IgnoredAdds(events: seq<Event>)
    requires WellFormed(events)
    ensures var more := events + [Ignored];
            WellFormed(more) && TextOf(more) == TextOf(events) && StartsOf(more) == StartsOf(events)
  {
    assert (events + [Ignored])[..|events + [Ignored]| - 1] == events;
    OneMore(events, Ignored);
  }

  lemma BlockAdds(events: seq<Event>, index: int, b: Wire.Block, parts: seq<string>)
    requires WellFormed(events) && (b.ToolUse? ==> b.id != "" && Fresh(StartsOf(events), index, b.id))
    ensures var more := WithBlock(events, index, b, parts);
            && WellFormed(more)
            && TextOf(more) == TextOf(events) + TextIn(b, Concat(parts))
            && StartsOf(more) == StartsOf(events) + (if b.ToolUse? then [Start(index, b.id, b.name)] else [])
  {
    var begun := events + [Opening(index, b)];
    OpeningAdds(events, index, b);
    var filled := begun + Fragments(index, b, parts);
    FragmentsAdd(begun, index, b, parts, filled);
    IgnoredAdds(filled);
  }

  lemma NoMoreArgs(events: seq<Event>, e: Event, i: int)
    requires !e.JsonDelta?
    ensures ArgsOf(events + [e], i) == ArgsOf(events, i)
  {
    OneMoreArgs(events, e, i);
    assert ArgsOf(events, i) + "" == ArgsOf(events, i);
  }

  lemma BlockAddsArgs(events: seq<Event>, index: int, b: Wire.Block, parts: seq<string>, i: int)
    ensures ArgsOf(WithBlock(events, index, b, parts), i) ==
            ArgsOf(events, i) + (if i == index then ArgsIn(b, Concat(parts)) else "")
  {
    var e := Opening(index, b);
    var begun := events + [e];
    var filled := begun + Fragments(index, b, parts);
    NoMoreArgs(events, e, i);
    FragmentsAddArgs(begun, index, b, parts, i, filled);
    NoMoreArgs(filled, Ignored, i);
  }

  function Normal(call: ToolCall): ToolCall {
    call.(arguments := Wire.InputOf(call.arguments))
  }

  // The events start the blocks' calls, in order.
  ghost predicate Says(events: seq<Event>, blocks: seq<Wire.Block>) {
    var starts, calls := StartsOf(events), AllCalls(blocks);
    && WellFormed(events) && TextOf(events) == AllText(blocks) && |starts| == |calls|
    && forall k :: 0 <= k < |starts| ==>
         && Normal(CallOf(events, starts[k])) == calls[k]
         && 0 <= starts[k].index < |blocks|
         && blocks[starts[k].index].ToolUse? && blocks[starts[k].index].id == starts[k].id
  }

  lemma {:induction false} EventsSay(blocks: seq<Wire.Block>, cuts: seq<seq<string>>)
    requires Plain(blocks) && Cuts(blocks, cuts)
    ensures Says(EventsFor(blocks, cuts), blocks)
    decreases |blocks|
  {
    if blocks != [] {
      var n := |blocks| - 1;
      assert Plain(blocks[..n]) && Cuts(blocks[..n], cuts[..n]);
      EventsSay(blocks[..n], cuts[..n]);
      assert blocks[..n] + [blocks[n]] == blocks;
      assert CutOf(blocks[n], cuts[n]);
      OneMoreBlock(EventsFor(blocks[..n], cuts[..n]), blocks[..n], blocks[n], cuts[n]);
    }
  }

  lemma BlockIsFresh(events: seq<Event>, blocks: seq<Wire.Block>, b: Wire.Block)
    requires Says(events, blocks) && Plain(blocks + [b])
    ensures b.ToolUse? ==> b.id != "" && Fresh(StartsOf(events), |blocks|, b.id)
  {
    var starts, all := StartsOf(events), blocks + [b];
    assert all[|blocks|] == b;
    if b.ToolUse? {
      forall k | 0 <= k < |starts|
        ensures starts[k].index != |blocks| && starts[k].id != b.id
      {
        assert all[starts[k].index] == blocks[starts[k].index];
      }
    }
  }

  lemma OneMoreBlock(events: seq<Event>, blocks: seq<Wire.Block>, b: Wire.Block, parts: seq<string>)
    requires Says(events, blocks) && Plain(blocks + [b]) && CutOf(b, parts)
    ensures Says(WithBlock(events, |blocks|, b, parts), blocks + [b])
  {
    var n, all, more := |blocks|, blocks + [b], WithBlock(events, |blocks|, b, parts);
    var starts := StartsOf(events);
    assert all[..|all| - 1] == blocks && all[n] == b;
    BlockIsFresh(events, blocks, b);
    BlockAdds(events, n, b, parts);
    forall k | 0 <= k < |StartsOf(more)|
      ensures var s := StartsOf(more)[k];
              && Normal(CallOf(more, s)) == AllCalls(all)[k]
              && 0 <= s.index <= n && all[s.index].ToolUse? && all[s.index].id == s.id
    {
      BlockAddsArgs(events, n, b, parts, StartsOf(more)[k].index);
      if k < |starts| {
        assert StartsOf(more)[k] == starts[k] && all[starts[k].index] == blocks[starts[k].index];
      } else {
        assert !HasStarted(starts, n);
        NoArgsBeforeStart(events, n);
      }
    }
  }

  // However the blocks of a reply are cut into fragments, the streaming pipeline
  // assembles the reply that Chat returns, but that an empty input may stay empty.
  lemma StreamedReply(blocks: seq<Wire.Block>, cuts: seq<seq<string>>, more: seq<Event>, readFails: bool)
    requires Plain(blocks) && Cuts(blocks, cuts)
    requires (more == [] || more[0].MessageStop?) && (more == [] ==> !readFails)
    ensures var chunks := Chunks(EventsFor(blocks, cuts) + more, readFails);
            var n := BodyLength(chunks);
            && n < |chunks| && chunks[n].Finished?
            && var reply := Assembled(ConsumeAll(chunks[..n]));
               && reply.content == AllText(blocks)
               && |reply.toolCalls| == |AllCalls(blocks)|
               && forall k :: 0 <= k < |reply.toolCalls| ==> Normal(reply.toolCalls[k]) == AllCalls(blocks)[k]
  {
    var events := EventsFor(blocks, cuts);
    EventsSay(blocks, cuts);
    BodyArrives(events, more, readFails);
    AssembledReply(events);
  }
}
