/** Streaming replies: the event loop of the provider
    (internal/llm/anthropic/stream.go), the consumer of the agent
    (internal/agent/stream.go: consumeRound), and the non-streaming reply they must
    agree with (internal/llm/anthropic/client.go: Chat). */
module Stream {
  import opened Prelude
  import opened Llm
  import Wire

  // A decoded server event; decoding JSON is foreign.
  datatype Event =
    | UseStart(index: int, id: string, name: string)
    | TextDelta(index: int, text: string)
    | JsonDelta(index: int, partial: string)
    | MessageStop
    | Ignored          // text block start, block stop, message delta, ping
    | Malformed

  datatype Chunk = Delta(text: string) | CallDelta(call: ToolCall) | Finished | Failed

  // What the agent emits to its sink; the iteration number is left out.
  datatype Emitted =
    | Text(text: string)
    | CallStart(id: string, name: string)
    | CallArgs(id: string, name: string, args: string)
    | CallEnd(id: string, name: string, args: string)
    | Error

  // ---------- provider: one event ----------

  datatype Producer = Producer(blocks: map<int, ToolCall>, sent: seq<Chunk>, over: bool)

  function BlockFor(blocks: map<int, ToolCall>, index: int): ToolCall {
    if index in blocks then blocks[index] else ToolCall("", "", "")
  }

  function Produce(s: Producer, e: Event): Producer {
    if s.over then s
    else match e
         case UseStart(index, id, name) =>
           var call := ToolCall(id, name, "");
           Producer(s.blocks[index := call], s.sent + [CallDelta(call)], false)
         case TextDelta(_, text) => if text == "" then s else s.(sent := s.sent + [Delta(text)])
         case JsonDelta(index, partial) =>
           var call := BlockFor(s.blocks, index);
           var more := call.(arguments := call.arguments + partial);
           Producer(s.blocks[index := more], s.sent + [CallDelta(more)], false)
         case MessageStop => s.(sent := s.sent + [Finished], over := true)
         case Ignored => s
         case Malformed => s.(sent := s.sent + [Failed], over := true)
  }

  function ProduceAll(events: seq<Event>): Producer {
    if events == [] then Producer(map[], [], false)
    else Produce(ProduceAll(events[..|events| - 1]), events[|events| - 1])
  }

  // The chunks of a whole body: a body that ends without a stop event still finishes,
  // unless reading it fails.
  function Chunks(events: seq<Event>, readFails: bool): seq<Chunk> {
    var s := ProduceAll(events);
    if s.over then s.sent else s.sent + [if readFails then Failed else Finished]
  }

  // What gets through of a list when sends(j) is whether send j does: all up to the first
  // that does not.
  ghost predicate Through(sent: seq<Chunk>, all: seq<Chunk>, sends: nat -> bool) {
    && sent <= all && (forall j :: 0 <= j < |sent| ==> sends(j))
    && (|sent| < |all| ==> !sends(|sent|))
  }

  // The i-th event: the tool blocks after it, and the chunk to send, if any.
  method TakeEvent(ghost events: seq<Event>, ghost i: nat, e: Event, toolBlocks: map<int, ToolCall>,
                   ghost sent: seq<Chunk>, ghost readFails: bool)
    returns (toolBlocks': map<int, ToolCall>, chunk: Option<Chunk>)
    requires i < |events| && e == events[i] && ProduceAll(events[..i]) == Producer(toolBlocks, sent, false)
    ensures var more := if chunk.Some? then sent + [chunk.value] else sent;
            && ProduceAll(events[..i + 1]) == Producer(toolBlocks', more, Stops(e))
            && more <= Chunks(events, readFails) && (Stops(e) ==> more == Chunks(events, readFails))
  {
    assert events[..i + 1][..|events[..i + 1]| - 1] == events[..i];
    toolBlocks', chunk := toolBlocks, None;
    match e {
      case UseStart(index, id, name) =>
        var tc := ToolCall(id, name, "");
        toolBlocks' := toolBlocks[index := tc];
        chunk := Some(CallDelta(tc));
      case TextDelta(_, text) =>
        if text != "" {
          chunk := Some(Delta(text));
        }
      case JsonDelta(index, partial) =>
        var tc := BlockFor(toolBlocks, index);
        tc := tc.(arguments := tc.arguments + partial);
        toolBlocks' := toolBlocks[index := tc];
        chunk := Some(CallDelta(tc));
      case MessageStop =>
        chunk := Some(Finished);
      case Malformed =>
        chunk := Some(Failed);
      case Ignored =>
    }
    SentGrows(events, i + 1, readFails);
    if Stops(e) {
      OverStays(events, i + 1);
    }
  }

  predicate Stops(e: Event) {
    e.MessageStop? || e.Malformed?
  }

  lemma BodyEnds(events: seq<Event>, toolBlocks: map<int, ToolCall>, sent: seq<Chunk>, readFails: bool)
    requires ProduceAll(events[..|events|]) == Producer(toolBlocks, sent, false)
    ensures Chunks(events, readFails) == sent + [if readFails then Failed else Finished]
  {
    assert events[..|events|] == events;
  }

  // The goroutine of ChatStream; a send that is abandoned ends it, and the channel with it.
  method ChatStream(events: seq<Event>, readFails: bool, sends: nat -> bool) returns (sent: seq<Chunk>)
    ensures Through(sent, Chunks(events, readFails), sends)
  {
    var toolBlocks: map<int, ToolCall> := map[];
    sent := [];
    for i := 0 to |events|
      invariant ProduceAll(events[..i]) == Producer(toolBlocks, sent, false)
      invariant Through(sent, sent, sends)
    {
      var chunk;
      toolBlocks, chunk := TakeEvent(events, i, events[i], toolBlocks, sent, readFails);
      var more;
      more, sent := Send(chunk, sent, Chunks(events, readFails), sends);
      if !more || Stops(events[i]) {
        return;
      }
    }
    BodyEnds(events, toolBlocks, sent, readFails);
    var more;
    more, sent := Send(Some(if readFails then Failed else Finished), sent, Chunks(events, readFails), sends);
  }

  // llm.SendChunk, if there is a chunk to send.
  method Send(chunk: Option<Chunk>, before: seq<Chunk>, ghost all: seq<Chunk>, sends: nat -> bool)
    returns (ok: bool, sent: seq<Chunk>)
    requires Through(before, before, sends) && (if chunk.Some? then before + [chunk.value] else before) <= all
    ensures ok ==> Through(sent, sent, sends) && sent == if chunk.Some? then before + [chunk.value] else before
    ensures !ok ==> Through(sent, all, sends)
  {
    ok, sent := true, before;
    if chunk.Some? {
      ok := sends(|before|);
      sent := if ok then before + [chunk.value] else before;
    }
  }

  // What was sent is a part of what will have been sent.
  lemma {:induction false} SentGrows(events: seq<Event>, i: nat, readFails: bool)
    requires i <= |events|
    ensures ProduceAll(events[..i]).sent <= Chunks(events, readFails)
    decreases |events| - i
  {
    if i < |events| {
      assert events[..i + 1][..|events[..i + 1]| - 1] == events[..i];
      SentGrows(events, i + 1, readFails);
    } else {
      assert events[..i] == events;
    }
  }

  lemma {:induction false} OverStays(events: seq<Event>, i: nat)
    requires i <= |events| && ProduceAll(events[..i]).over
    ensures ProduceAll(events) == ProduceAll(events[..i])
    decreases |events| - i
  {
    if i < |events| {
      assert events[..i + 1][..|events[..i + 1]| - 1] == events[..i];
      OverStays(events, i + 1);
    } else {
      assert events[..i] == events;
    }
  }

  // ---------- agent: one chunk ----------

  datatype CallState = CallState(call: ToolCall, emitted: bool)

  datatype Consumer = Consumer(content: string, calls: map<string, CallState>, order: seq<string>, events: seq<Emitted>)

  function KeyOf(s: Consumer, call: ToolCall): string {
    if call.id == "" then "anon-" + Decimal(|s.order|) else call.id
  }

  function Decimal(n: nat): string {
    if n < 10 then [Digit(n)] else Decimal(n / 10) + [Digit(n % 10)]
  }

  function Digit(n: nat): char
    requires n < 10
  {
    "0123456789"[n]
  }

  function Merge(had: ToolCall, snapshot: ToolCall): ToolCall {
    ToolCall(if snapshot.id != "" then snapshot.id else had.id,
             if snapshot.name != "" then snapshot.name else had.name,
             snapshot.arguments)
  }

  function TakeCall(s: Consumer, snapshot: ToolCall): Consumer {
    var key := KeyOf(s, snapshot);
    var had := if key in s.calls then s.calls[key] else CallState(ToolCall("", "", ""), false);
    var call := Merge(had.call, snapshot);
    var starts := !had.emitted && call.name != "";
    var emitted := had.emitted || starts;
    Consumer(
      s.content,
      s.calls[key := CallState(call, emitted)],
      if key in s.calls then s.order else s.order + [key],
      s.events
        + (if starts then [CallStart(call.id, call.name)] else [])
        + (if call.arguments != "" && emitted then [CallArgs(call.id, call.name, call.arguments)] else []))
  }

  // Chunks of text and calls; the others end the round.
  function Consume(s: Consumer, c: Chunk): Consumer {
    match c
    case Delta(text) =>
      if text == "" then s else s.(content := s.content + text, events := s.events + [Text(text)])
    case CallDelta(call) => TakeCall(s, call)
    case _ => s
  }

  function ConsumeAll(chunks: seq<Chunk>): Consumer {
    if chunks == [] then Consumer("", map[], [], [])
    else Consume(ConsumeAll(chunks[..|chunks| - 1]), chunks[|chunks| - 1])
  }

  function CallAt(calls: map<string, CallState>, key: string): ToolCall {
    if key in calls then calls[key].call else ToolCall("", "", "")
  }

  function CallsInOrder(calls: map<string, CallState>, order: seq<string>): (r: seq<ToolCall>)
    ensures |r| == |order| && forall i :: 0 <= i < |order| ==> r[i] == CallAt(calls, order[i])
  {
    if order == [] then [] else [CallAt(calls, order[0])] + CallsInOrder(calls, order[1..])
  }

  function Ends(calls: seq<ToolCall>): (r: seq<Emitted>)
    ensures |r| == |calls|
    ensures forall i :: 0 <= i < |calls| ==> r[i] == CallEnd(calls[i].id, calls[i].name, calls[i].arguments)
  {
    if calls == [] then [] else [CallEnd(calls[0].id, calls[0].name, calls[0].arguments)] + Ends(calls[1..])
  }

  function Assembled(s: Consumer): Message {
    AssistantMessage(s.content, CallsInOrder(s.calls, s.order))
  }

  // The body chunks of a stream: all but the one that ends it.
  function BodyLength(chunks: seq<Chunk>): (n: nat)
    ensures n <= |chunks|
    ensures forall i :: 0 <= i < n ==> chunks[i].Delta? || chunks[i].CallDelta?
    ensures n < |chunks| ==> chunks[n].Finished? || chunks[n].Failed?
  {
    if chunks == [] || chunks[0].Finished? || chunks[0].Failed? then 0 else 1 + BodyLength(chunks[1..])
  }

  // From before, the events up to full are told one by one, to the first that is refused.
  ghost predicate Delivered(before: seq<Emitted>, now: seq<Emitted>, full: seq<Emitted>, takes: nat -> bool, ok: bool) {
    && before <= now <= full && (ok <==> now == full)
    && (forall j :: |before| <= j < |now| ==> takes(j))
    && (!ok ==> !takes(|now|))
  }

  lemma DeliveredOn(before: seq<Emitted>, mid: seq<Emitted>, e: Emitted, now: seq<Emitted>, full: seq<Emitted>,
                    takes: nat -> bool, ok: bool)
    requires Delivered(before, mid, mid, takes, true) && Delivered(mid, now, mid + [e], takes, ok)
    requires mid + [e] <= full
    ensures ok ==> Delivered(before, now, now, takes, true)
    ensures !ok ==> Delivered(before, now, full, takes, false)
  {
  }

  // A sink that keeps what it takes; takes(j) is whether it takes an event after j others.
  class Sink {
    const takes: nat -> bool
    var events: seq<Emitted>

    constructor (takes: nat -> bool)
      ensures this.takes == takes && events == []
    {
      this.takes := takes;
      events := [];
    }

    method Emit(e: Emitted) returns (ok: bool)
      modifies this
      ensures Delivered(old(events), events, old(events) + [e], takes, ok)
    {
      ok := takes(|events|);
      if ok {
        events := events + [e];
      }
    }
  }

  // The snapshot branch of consumeRound.
  method ConsumeCall(content: string, calls: map<string, CallState>, order: seq<string>, snapshot: ToolCall, sink: Sink)
    returns (ok: bool, calls': map<string, CallState>, order': seq<string>)
    modifies sink
    ensures var t := TakeCall(Consumer(content, calls, order, old(sink.events)), snapshot);
            && Delivered(old(sink.events), sink.events, t.events, sink.takes, ok)
            && (ok ==> Consumer(content, calls', order', sink.events) == t)
  {
    calls', order' := calls, order;
    var key := snapshot.id;
    if key == "" {
      key := "anon-" + Decimal(|order|);
    }
    var st := CallState(ToolCall("", "", ""), false);
    if key in calls {
      st := calls[key];
    } else {
      order' := order' + [key];
    }
    st := st.(call := Merge(st.call, snapshot));
    if !st.emitted && st.call.name != "" {
      st := st.(emitted := true);
      ok := sink.Emit(CallStart(st.call.id, st.call.name));
      if !ok {
        return;
      }
    }
    calls' := calls'[key := st];
    if st.call.arguments != "" && st.emitted {
      ok := sink.Emit(CallArgs(st.call.id, st.call.name, st.call.arguments));
      if !ok {
        return;
      }
    }
    ok := true;
  }

  method EmitEnds(toolCalls: seq<ToolCall>, sink: Sink) returns (ok: bool)
    modifies sink
    ensures Delivered(old(sink.events), sink.events, old(sink.events) + Ends(toolCalls), sink.takes, ok)
  {
    ghost var ends := Ends(toolCalls);
    ghost var before := sink.events;
    for k := 0 to |toolCalls|
      invariant sink.events == before + ends[..k]
      invariant Delivered(before, sink.events, sink.events, sink.takes, true)
    {
      ghost var mid := sink.events;
      var call := toolCalls[k];
      ok := sink.Emit(CallEnd(call.id, call.name, call.arguments));
      assert before + ends[..k + 1] == mid + [ends[k]];
      DeliveredOn(before, mid, ends[k], sink.events, before + ends, sink.takes, ok);
      if !ok {
        return;
      }
    }
    assert ends[..|toolCalls|] == ends;
    ok := true;
  }

  lemma OneMoreChunk(chunks: seq<Chunk>, i: nat)
    requires i < |chunks|
    ensures ConsumeAll(chunks[..i + 1]) == Consume(ConsumeAll(chunks[..i]), chunks[i])
  {
    assert chunks[..i + 1][..|chunks[..i + 1]| - 1] == chunks[..i];
  }

  // All that a round whose stream ends well has to tell.
  function Telling(chunks: seq<Chunk>): seq<Emitted> {
    var s := ConsumeAll(chunks[..BodyLength(chunks)]);
    s.events + Ends(Assembled(s).toolCalls)
  }

  // The stream is read to its end, which is no error, and the sink takes everything.
  ghost predicate MessageComes(chunks: seq<Chunk>, cancelled: nat -> bool, takes: nat -> bool) {
    var n := BodyLength(chunks);
    && (forall i :: 0 <= i <= n ==> !cancelled(i))
    && (n < |chunks| ==> chunks[n].Finished?)
    && forall j :: 0 <= j < |Telling(chunks)| ==> takes(j)
  }

  // The first place at or behind from that is cancelled; n if none is before n.
  function FirstCancelled(cancelled: nat -> bool, from: nat, n: nat): (k: nat)
    requires from <= n
    ensures from <= k <= n && (k < n ==> cancelled(k)) && forall l :: from <= l < k ==> !cancelled(l)
    decreases n - from
  {
    if from == n || cancelled(from) then from else FirstCancelled(cancelled, from + 1, n)
  }

  // All that a round has to tell: of the chunks up to where it is cancelled, of those up to
  // an error and the error, or of all and the ends of the calls.
  function Script(chunks: seq<Chunk>, cancelled: nat -> bool): seq<Emitted> {
    var n := BodyLength(chunks);
    var i := FirstCancelled(cancelled, 0, n + 1);
    if i <= n then ConsumeAll(chunks[..i]).events
    else if n < |chunks| && chunks[n].Failed? then ConsumeAll(chunks[..n]).events + [Error]
    else Telling(chunks)
  }

  // The sink has heard the script up to the first event that it does not take.
  ghost predicate HeardScript(chunks: seq<Chunk>, cancelled: nat -> bool, heard: seq<Emitted>, takes: nat -> bool) {
    Delivered([], heard, Script(chunks, cancelled), takes, heard == Script(chunks, cancelled))
  }

  lemma {:induction false} EventsGrow(chunks: seq<Chunk>, i: nat, k: nat)
    requires i <= k <= |chunks|
    ensures ConsumeAll(chunks[..i]).events <= ConsumeAll(chunks[..k]).events
    decreases k
  {
    if i < k {
      EventsGrow(chunks, i, k - 1);
      OneMoreChunk(chunks, k - 1);
    }
  }

  lemma ScriptBegins(chunks: seq<Chunk>, i: nat, cancelled: nat -> bool)
    requires i <= BodyLength(chunks) && forall k :: 0 <= k < i ==> !cancelled(k)
    ensures ConsumeAll(chunks[..i]).events <= Script(chunks, cancelled)
    ensures ConsumeAll(chunks[..i]).events <= Telling(chunks)
  {
    var n := BodyLength(chunks);
    var k := FirstCancelled(cancelled, 0, n + 1);
    EventsGrow(chunks, i, n);
    if k <= n {
      EventsGrow(chunks, i, k);
    }
  }

  lemma RefusalStops(chunks: seq<Chunk>, i: nat, now: seq<Emitted>, cancelled: nat -> bool, takes: nat -> bool)
    requires i <= BodyLength(chunks) && now < ConsumeAll(chunks[..i]).events && !takes(|now|)
    requires forall k :: 0 <= k < i ==> !cancelled(k)
    requires forall j :: 0 <= j < |now| ==> takes(j)
    ensures !MessageComes(chunks, cancelled, takes) && HeardScript(chunks, cancelled, now, takes)
  {
    ScriptBegins(chunks, i, cancelled);
  }

  lemma CancelStops(chunks: seq<Chunk>, i: nat, cancelled: nat -> bool, takes: nat -> bool)
    requires i <= BodyLength(chunks) && cancelled(i) && forall k :: 0 <= k < i ==> !cancelled(k)
    requires forall j :: 0 <= j < |ConsumeAll(chunks[..i]).events| ==> takes(j)
    ensures !MessageComes(chunks, cancelled, takes)
    ensures HeardScript(chunks, cancelled, ConsumeAll(chunks[..i]).events, takes)
  {
    assert FirstCancelled(cancelled, 0, BodyLength(chunks) + 1) == i;
  }

  // The error of the stream is the last thing told.
  lemma ErrorStops(chunks: seq<Chunk>, heard: seq<Emitted>, cancelled: nat -> bool, takes: nat -> bool, ok: bool)
    requires var n := BodyLength(chunks);
             && n < |chunks| && chunks[n].Failed? && (forall k :: 0 <= k <= n ==> !cancelled(k))
             && (forall j :: 0 <= j < |ConsumeAll(chunks[..n]).events| ==> takes(j))
             && Delivered(ConsumeAll(chunks[..n]).events, heard, ConsumeAll(chunks[..n]).events + [Error], takes, ok)
    ensures !MessageComes(chunks, cancelled, takes) && HeardScript(chunks, cancelled, heard, takes)
  {
    assert FirstCancelled(cancelled, 0, BodyLength(chunks) + 1) == BodyLength(chunks) + 1;
  }

  // The end of a stream without an error: the rest of the script are the ends.
  lemma EndsFollow(chunks: seq<Chunk>, heard: seq<Emitted>, cancelled: nat -> bool, takes: nat -> bool, ok: bool)
    requires var n := BodyLength(chunks);
             && (n < |chunks| ==> chunks[n].Finished?) && (forall k :: 0 <= k <= n ==> !cancelled(k))
             && (forall j :: 0 <= j < |ConsumeAll(chunks[..n]).events| ==> takes(j))
             && Delivered(ConsumeAll(chunks[..n]).events, heard, Telling(chunks), takes, ok)
    ensures HeardScript(chunks, cancelled, heard, takes)
    ensures MessageComes(chunks, cancelled, takes) <==> ok
  {
    assert FirstCancelled(cancelled, 0, BodyLength(chunks) + 1) == BodyLength(chunks) + 1;
  }

  // The i-th chunk.
  method ConsumeChunk(ghost chunks: seq<Chunk>, ghost i: nat, chunk: Chunk, content: string,
                      calls: map<string, CallState>, order: seq<string>, sink: Sink, ghost cancelled: nat -> bool)
    returns (ok: bool, content': string, calls': map<string, CallState>, order': seq<string>)
    requires i <= BodyLength(chunks) && i < |chunks| && chunk == chunks[i] && !chunk.Finished?
    requires Consumer(content, calls, order, sink.events) == ConsumeAll(chunks[..i])
    requires forall j :: 0 <= j < |sink.events| ==> sink.takes(j)
    requires forall k :: 0 <= k <= i ==> !cancelled(k)
    modifies sink
    ensures ok ==>
              && i < BodyLength(chunks)
              && Consumer(content', calls', order', sink.events) == ConsumeAll(chunks[..i + 1])
              && forall j :: 0 <= j < |sink.events| ==> sink.takes(j)
    ensures !ok ==>
              !MessageComes(chunks, cancelled, sink.takes) &&
              HeardScript(chunks, cancelled, sink.events, sink.takes)
  {
    ok, content', calls', order' := true, content, calls, order;
    if chunk.Failed? {
      var told := sink.Emit(Error);
      ErrorStops(chunks, sink.events, cancelled, sink.takes, told);
      ok := false;
      return;
    }
    BodyGoesOn(chunks, i);
    OneMoreChunk(chunks, i);
    if chunk.Delta? {
      if chunk.text != "" {
        content' := content + chunk.text;
        ok := sink.Emit(Text(chunk.text));
      }
    } else {
      ok, calls', order' := ConsumeCall(content, calls, order, chunk.call, sink);
    }
    if !ok {
      RefusalStops(chunks, i + 1, sink.events, cancelled, sink.takes);
    }
  }

  lemma BodyGoesOn(chunks: seq<Chunk>, i: nat)
    requires i <= BodyLength(chunks) && i < |chunks| && (chunks[i].Delta? || chunks[i].CallDelta?)
    ensures i < BodyLength(chunks)
  {
  }

  // The loop of consumeRound, up to the end of the stream.
  method ConsumeBody(chunks: seq<Chunk>, cancelled: nat -> bool, sink: Sink)
    returns (ok: bool, content: string, calls: map<string, CallState>, order: seq<string>)
    requires sink.events == []
    modifies sink
    ensures ok ==>
              var n := BodyLength(chunks);
              && (n < |chunks| ==> chunks[n].Finished?) && (forall k :: 0 <= k <= n ==> !cancelled(k))
              && ConsumeAll(chunks[..n]) == Consumer(content, calls, order, sink.events)
              && forall j :: 0 <= j < |sink.events| ==> sink.takes(j)
    ensures !ok ==>
              !MessageComes(chunks, cancelled, sink.takes) &&
              HeardScript(chunks, cancelled, sink.events, sink.takes)
  {
    content, calls, order := "", map[], [];
    ghost var n := BodyLength(chunks);
    var i := 0;
    while i < |chunks| && !chunks[i].Finished?
      invariant 0 <= i <= n && forall k :: 0 <= k < i ==> !cancelled(k)
      invariant ConsumeAll(chunks[..i]) == Consumer(content, calls, order, sink.events)
      invariant forall j :: 0 <= j < |sink.events| ==> sink.takes(j)
    {
      if cancelled(i) {
        CancelStops(chunks, i, cancelled, sink.takes);
        ok := false;
        return;
      }
      ok, content, calls, order := ConsumeChunk(chunks, i, chunks[i], content, calls, order, sink, cancelled);
      if !ok {
        return;
      }
      i := i + 1;
    }
    if cancelled(i) {
      CancelStops(chunks, i, cancelled, sink.takes);
    }
    ok := !cancelled(i);
  }

  // consumeRound; cancelled(i) is whether the context is found done before chunk i, or
  // before the end of the stream. A message comes back exactly if it never is, the stream
  // ends well and the sink takes all there is to tell.
  method ConsumeRound(chunks: seq<Chunk>, cancelled: nat -> bool, sink: Sink) returns (out: Option<Message>)
    requires sink.events == []
    modifies sink
    ensures out.Some? <==> MessageComes(chunks, cancelled, sink.takes)
    ensures out.Some? ==>
              out.value == Assembled(ConsumeAll(chunks[..BodyLength(chunks)])) && sink.events == Telling(chunks)
    ensures HeardScript(chunks, cancelled, sink.events, sink.takes)
  {
    var ok, content, calls, order := ConsumeBody(chunks, cancelled, sink);
    if !ok {
      return None;
    }
    var toolCalls := CallsInOrder(calls, order);
    ok := EmitEnds(toolCalls, sink);
    EndsFollow(chunks, sink.events, cancelled, sink.takes, ok);
    if !ok {
      return None;
    }
    out := Some(AssistantMessage(content, toolCalls));
  }

  // ---------- the non-streaming reply ----------

  function AllText(blocks: seq<Wire.Block>): string {
    if blocks == [] then ""
    else AllText(blocks[..|blocks| - 1]) + (var b := blocks[|blocks| - 1]; if b.Text? then b.text else "")
  }

  function AllCalls(blocks: seq<Wire.Block>): seq<ToolCall> {
    if blocks == [] then []
    else
      AllCalls(blocks[..|blocks| - 1]) +
      (var b := blocks[|blocks| - 1]; if b.ToolUse? then [ToolCall(b.id, b.name, Wire.InputOf(b.input))] else [])
  }

  // Chat, from the decoded content blocks on.
  method Chat(blocks: seq<Wire.Block>) returns (m: Message)
    ensures m == AssistantMessage(AllText(blocks), AllCalls(blocks))
  {
    var text := "";
    var calls: seq<ToolCall> := [];
    for i := 0 to |blocks|
      invariant text == AllText(blocks[..i]) && calls == AllCalls(blocks[..i])
    {
      assert blocks[..i + 1][..|blocks[..i + 1]| - 1] == blocks[..i];
      match blocks[i] {
        case Text(t) => text := text + t;
        case ToolUse(id, name, input) => calls := calls + [ToolCall(id, name, Wire.InputOf(input))];
        case _ =>
      }
    }
    assert blocks[..|blocks|] == blocks;
    m := AssistantMessage(text, calls);
  }
}
