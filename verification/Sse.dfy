/** The server-sent event encoder (internal/server/sse.go) and the browser's
    incremental parser (web/src/sse.ts): a printer and a parser that undo each
    other for every way the network cuts the stream. */
module Sse {
  import opened Prelude

  // JSON is foreign: marshal and parse, and what the client looks up in a value.
  datatype Js<!J> = Js(
    marshal: J -> string,
    parse: string -> Option<J>,
    isNull: J -> bool,
    message: J -> string,      // .message ?? 'unknown error'
    delta: J -> Option<J>,     // .choices?.[0]?.delta when truthy
    typeError: string)         // the message of the TypeError on a null value

  // What json.Marshal guarantees of a value that JSON.parse reads back.
  ghost predicate Marshals<J>(js: Js<J>, j: J) {
    && js.parse(js.marshal(j)) == Some(j)
    && js.marshal(j) != "[DONE]" && |js.marshal(j)| > 0 && !IsSpace(js.marshal(j)[0])
    && OneLine(js.marshal(j))
  }

  datatype Frame<J> =
    | Delta(chunk: J)
    | Named(name: string, payload: J)
    | Comment(text: string)
    | Done

  datatype Callback<J> =
    | OnDelta(delta: J)
    | OnToolResult(result: J)
    | OnRefineRound(round: J)
    | OnRefineSummary(summary: J)
    | OnError(message: string)
    | OnDone

  // How the body of the response ends.
  datatype End = Closed | Aborted | Broken(message: string)

  // ---------- text ----------

  // The white space of ECMAScript's trim.
  predicate IsSpace(c: char) {
    var n := c as int;
    9 <= n <= 13 || n == 0x20 || n == 0xA0 || n == 0x1680 || 0x2000 <= n <= 0x200A ||
    n == 0x2028 || n == 0x2029 || n == 0x202F || n == 0x205F || n == 0x3000 || n == 0xFEFF
  }

  // White space of JavaScript differs from Unicode's in two characters.
  lemma SpacesOfJavaScript(c: char)
    ensures IsSpace(c) <==> (IsUnicodeSpace(c) && c as int != 0x85) || c as int == 0xFEFF
  {
  }

  predicate OneLine(s: string) {
    forall i :: 0 <= i < |s| ==> s[i] != '\n' && s[i] != '\r'
  }

  function TrimStart(s: string): string {
    if s != "" && IsSpace(s[0]) then TrimStart(s[1..]) else s
  }

  function TrimEnd(s: string): string {
    if s != "" && IsSpace(s[|s| - 1]) then TrimEnd(s[..|s| - 1]) else s
  }

  function Trim(s: string): string {
    TrimEnd(TrimStart(s))
  }

  predicate StartsWith(s: string, prefix: string) {
    prefix <= s
  }

  predicate BlankAt(s: string, k: nat) {
    k + 1 < |s| && s[k] == '\n' && s[k + 1] == '\n'
  }

  // Position of the first frame terminator, or the length of s.
  function Terminator(s: string): (i: nat)
    ensures i == |s| || BlankAt(s, i)
    ensures forall k :: 0 <= k < i ==> !BlankAt(s, k)
  {
    TerminatorFrom(s, 0)
  }

  function TerminatorFrom(s: string, from: nat): (i: nat)
    requires from <= |s|
    ensures i == |s| || BlankAt(s, i)
    ensures from <= i && forall k :: from <= k < i ==> !BlankAt(s, k)
    decreases |s| - from
  {
    if from == |s| || BlankAt(s, from) then from else TerminatorFrom(s, from + 1)
  }

  // split(/\r?\n/)
  function Lines(s: string): (r: seq<string>)
    ensures |r| > 0
  {
    var i := LineEnd(s);
    if i == |s| then [s]
    else [if i > 0 && s[i - 1] == '\r' then s[..i - 1] else s[..i]] + Lines(s[i + 1..])
  }

  function LineEnd(s: string): (i: nat)
    ensures i <= |s|
    ensures i < |s| ==> s[i] == '\n'
    ensures forall k :: 0 <= k < i ==> s[k] != '\n'
  {
    if s == "" || s[0] == '\n' then 0 else 1 + LineEnd(s[1..])
  }

  // replace(/\r\n/g, '\n'): a carriage return right before a line feed goes.
  function Normalized(s: string): string {
    if s == "" then "" else (if BreakAt(s) then "" else [s[0]]) + Normalized(s[1..])
  }

  predicate BreakAt(s: string) {
    |s| >= 2 && s[0] == '\r' && s[1] == '\n'
  }

  function NormalizedAll(chunks: seq<string>): string {
    if chunks == [] then "" else Normalized(chunks[0]) + NormalizedAll(chunks[1..])
  }

  // ---------- server ----------

  function Encode<J>(js: Js<J>, f: Frame<J>): string {
    match f
    case Delta(chunk) => "data: " + js.marshal(chunk) + "\n\n"
    case Named(name, payload) => "event: " + name + "\ndata: " + js.marshal(payload) + "\n\n"
    case Comment(text) => ": " + text + "\n\n"
    case Done => "data: [DONE]\n\n"
  }

  function EncodeAll<J>(js: Js<J>, fs: seq<Frame<J>>): string {
    if fs == [] then "" else Encode(js, fs[0]) + EncodeAll(js, fs[1..])
  }

  class Encoder<J> {
    const js: Js<J>
    var w: string

    constructor (js: Js<J>)
      ensures this.js == js && w == ""
    {
      this.js := js;
      w := "";
    }

    method WriteOpenAIDelta(chunk: J)
      modifies this`w
      ensures w == old(w) + Encode(js, Delta(chunk))
      ensures w == old(w) + ("data: " + js.marshal(chunk) + "\n\n")
    {
      w := w + "data: " + js.marshal(chunk) + "\n\n";
    }

    method WriteNamedEvent(name: string, payload: J)
      modifies this`w
      ensures w == old(w) + Encode(js, Named(name, payload))
      ensures w == old(w) + ("event: " + name + "\ndata: " + js.marshal(payload) + "\n\n")
    {
      w := w + "event: " + name + "\ndata: " + js.marshal(payload) + "\n\n";
    }

    method WriteComment(text: string)
      modifies this`w
      ensures w == old(w) + Encode<J>(js, Comment(text))
      ensures w == old(w) + (": " + text + "\n\n")
    {
      w := w + ": " + text + "\n\n";
    }

    method WriteDone()
      modifies this`w
      ensures w == old(w) + Encode<J>(js, Done)
      ensures w == old(w) + "data: [DONE]\n\n"
    {
      w := w + "data: [DONE]\n\n";
    }
  }

  // ---------- client: one frame ----------

  // The event name and data lines collected from the lines of a frame.
  datatype Fields = Fields(event: string, data: seq<string>)

  function Collect(lines: seq<string>, acc: Fields): Fields {
    if lines == [] then acc
    else
      var line := lines[0];
      Collect(lines[1..],
              if line == "" || StartsWith(line, ":") then acc
              else if StartsWith(line, "event:") then acc.(event := Trim(line[6..]))
              else if StartsWith(line, "data:") then acc.(data := acc.data + [TrimStart(line[5..])])
              else acc)
  }

  // thrown: an exception leaves the frame handler.
  datatype Handled<J> = Handled(calls: seq<Callback<J>>, thrown: bool)

  function Dispatch<J>(js: Js<J>, event: string, parsed: J): Handled<J> {
    if event == "tool_result" then Handled([OnToolResult(parsed)], false)
    else if event == "refine_round" then Handled([OnRefineRound(parsed)], false)
    else if event == "refine_summary" then Handled([OnRefineSummary(parsed)], false)
    else if js.isNull(parsed) then Handled([], true)
    else if event == "error" then Handled([OnError(js.message(parsed))], false)
    else match js.delta(parsed)
         case Some(d) => Handled([OnDelta(d)], false)
         case None => Handled([], false)
  }

  function HandleFields<J>(js: Js<J>, fields: Fields): Handled<J> {
    if fields.data == [] then Handled([], false)
    else if Join(fields.data, "\n") == "[DONE]" then Handled([OnDone], false)
    else match js.parse(Join(fields.data, "\n"))
         case None => Handled([], false)
         case Some(parsed) => Dispatch(js, fields.event, parsed)
  }

  function HandleText<J>(js: Js<J>, frame: string): Handled<J> {
    HandleFields(js, Collect(Lines(frame), Fields("message", [])))
  }

  method HandleFrame<J>(js: Js<J>, frame: string) returns (h: Handled<J>)
    ensures h == HandleText(js, frame)
  {
    var lines := Lines(frame);
    var eventName := "message";
    var dataLines := [];
    for i := 0 to |lines|
      invariant Collect(lines[i..], Fields(eventName, dataLines)) == Collect(lines, Fields("message", []))
    {
      var line := lines[i];
      assert lines[i..][0] == line && lines[i..][1..] == lines[i + 1..];
      if StartsWith(line, ":") || line == "" {
        continue;
      }
      if StartsWith(line, "event:") {
        eventName := Trim(line[6..]);
      } else if StartsWith(line, "data:") {
        dataLines := dataLines + [TrimStart(line[5..])];
      }
    }
    h := HandleFields(js, Fields(eventName, dataLines));
  }

  // ---------- client: the stream ----------

  // The frames of a text are what precedes each terminator.
  function Frames(s: string): seq<string>
    decreases |s|
  {
    var i := Terminator(s);
    if i == |s| then [] else [s[..i]] + Frames(s[i + 2..])
  }

  // What follows the last terminator.
  function Rest(s: string): string
    decreases |s|
  {
    var i := Terminator(s);
    if i == |s| then s else Rest(s[i + 2..])
  }

  // Frames are handled in order up to the first that throws.
  function HandleAll<J>(js: Js<J>, frames: seq<string>): Handled<J> {
    if frames == [] then Handled([], false)
    else
      Then(HandleText(js, frames[0]), HandleAll(js, frames[1..]))
  }

  // A thrown exception cuts off what would come after it.
  function Then<J>(a: Handled<J>, b: Handled<J>): Handled<J> {
    if a.thrown then a else Handled(a.calls + b.calls, b.thrown)
  }

  lemma ThenAssociates<J>(a: Handled<J>, b: Handled<J>, c: Handled<J>)
    ensures Then(Then(a, b), c) == Then(a, Then(b, c))
  {
    assert a.calls + b.calls + c.calls == a.calls + (b.calls + c.calls);
  }

  // All callbacks for a response body with this text.
  function Callbacks<J>(js: Js<J>, text: string, end: End): seq<Callback<J>> {
    var h := HandleAll(js, Frames(text));
    if h.thrown then h.calls + [OnError(js.typeError), OnDone]
    else match end
         case Closed =>
           if Trim(Rest(text)) == "" then h.calls + [OnDone]
           else
             var last := HandleText(js, Rest(text));
             h.calls + last.calls + (if last.thrown then [OnError(js.typeError), OnDone] else [OnDone])
         case Aborted => h.calls + [OnDone]
         case Broken(message) => h.calls + [OnError(message), OnDone]
  }

  lemma TerminatorIs(s: string, i: nat)
    requires BlankAt(s, i)
    requires forall k :: 0 <= k < i ==> !BlankAt(s, k)
    ensures Terminator(s) == i
  {
    assert !BlankAt(s, |s|);
  }

  // The frames and the rest of a text that starts with a terminated frame.
  lemma FirstFrame(frame: string, more: string)
    requires Terminator(frame + "\n\n" + more) == |frame|
    ensures Frames(frame + "\n\n" + more) == [frame] + Frames(more)
    ensures Rest(frame + "\n\n" + more) == Rest(more)
  {
    var s := frame + "\n\n" + more;
    assert s[..|frame|] == frame;
    assert s[|frame| + 2..] == more;
  }

  lemma Reassemble(a: string, i: nat)
    requires BlankAt(a, i)
    ensures a == a[..i] + "\n\n" + a[i + 2..]
  {
  }

  lemma TerminatorAppend(a: string, b: string)
    requires Terminator(a) < |a|
    ensures Terminator(a + b) == Terminator(a)
  {
    var i := Terminator(a);
    forall k | 0 <= k < i
      ensures !BlankAt(a + b, k)
    {
      assert !BlankAt(a, k);
    }
    assert BlankAt(a + b, i);
    TerminatorIs(a + b, i);
  }

  // A prefix keeps its frames; the rest is split together with what follows.
  lemma {:induction false} FramesAppend(a: string, b: string)
    ensures Frames(a + b) == Frames(a) + Frames(Rest(a) + b)
    ensures Rest(a + b) == Rest(Rest(a) + b)
    decreases |a|
  {
    var i := Terminator(a);
    if i < |a| {
      TerminatorAppend(a, b);
      Reassemble(a, i);
      FramesAppend(a[i + 2..], b);
      FramesAppendStep(a[..i], a[i + 2..], b);
    }
  }

  lemma FramesAppendStep(frame: string, more: string, b: string)
    requires Terminator(frame + "\n\n" + more) == |frame|
    requires Terminator(frame + "\n\n" + more + b) == |frame|
    requires Frames(more + b) == Frames(more) + Frames(Rest(more) + b) && Rest(more + b) == Rest(Rest(more) + b)
    ensures var a := frame + "\n\n" + more;
            Frames(a + b) == Frames(a) + Frames(Rest(a) + b) && Rest(a + b) == Rest(Rest(a) + b)
  {
    FirstFrame(frame, more);
    assert frame + "\n\n" + more + b == frame + "\n\n" + (more + b);
    FirstFrame(frame, more + b);
  }

  lemma {:induction false} HandleAllAppend<J>(js: Js<J>, a: seq<string>, b: seq<string>)
    ensures HandleAll(js, a + b) == Then(HandleAll(js, a), HandleAll(js, b))
  {
    if a == [] {
      assert a + b == b;
    } else {
      assert (a + b)[0] == a[0] && (a + b)[1..] == a[1..] + b;
      HandleAllAppend(js, a[1..], b);
      ThenAssociates(HandleText(js, a[0]), HandleAll(js, a[1..]), HandleAll(js, b));
    }
  }

  lemma HandleFirst<J>(js: Js<J>, s: string)
    requires Terminator(s) < |s|
    ensures var i := Terminator(s);
            HandleAll(js, Frames(s)) == Then(HandleText(js, s[..i]), HandleAll(js, Frames(s[i + 2..]))) &&
            Rest(s) == Rest(s[i + 2..])
  {
    var i := Terminator(s);
    var fs := Frames(s);
    assert fs[0] == s[..i] && fs[1..] == Frames(s[i + 2..]);
  }

  // The inner loop: handles every complete frame and leaves the rest in the buffer.
  method DrainFrames<J>(js: Js<J>, text: string) returns (calls: seq<Callback<J>>, buffer: string, thrown: bool)
    ensures HandleAll(js, Frames(text)) == Handled(calls, thrown)
    ensures !thrown ==> buffer == Rest(text)
  {
    calls, buffer, thrown := [], text, false;
    while Terminator(buffer) < |buffer|
      invariant Pending(js, text, calls, buffer)
      decreases |buffer|
    {
      var idx := Terminator(buffer);
      var h := HandleFrame(js, buffer[..idx]);
      TakeFrame(js, text, calls, buffer);
      buffer := buffer[idx + 2..];
      calls := calls + h.calls;
      if h.thrown {
        return calls, buffer, true;
      }
    }
  }

  // The callbacks made so far and the frames left in the buffer add up to the text.
  ghost predicate Pending<J>(js: Js<J>, text: string, calls: seq<Callback<J>>, buffer: string) {
    HandleAll(js, Frames(text)) == Then(Handled(calls, false), HandleAll(js, Frames(buffer))) &&
      Rest(text) == Rest(buffer)
  }

  lemma TakeFrame<J>(js: Js<J>, text: string, calls: seq<Callback<J>>, buffer: string)
    requires Pending(js, text, calls, buffer) && Terminator(buffer) < |buffer|
    ensures var i := Terminator(buffer);
            var h := HandleText(js, buffer[..i]);
            if h.thrown then HandleAll(js, Frames(text)) == Handled(calls + h.calls, true)
            else Pending(js, text, calls + h.calls, buffer[i + 2..])
  {
    HandleFirst(js, buffer);
    var i := Terminator(buffer);
    ThenAssociates(Handled(calls, false), HandleText(js, buffer[..i]), HandleAll(js, Frames(buffer[i + 2..])));
  }

  lemma OneRead(chunk: string)
    ensures NormalizedAll([chunk]) == Normalized(chunk)
  {
    var rest: seq<string> := [chunk][1..];
    assert rest == [];
  }

  lemma {:induction false} ReadsLeft(chunks: seq<string>, n: nat)
    requires n <= |chunks|
    ensures NormalizedAll(chunks) == NormalizedAll(chunks[..n]) + NormalizedAll(chunks[n..])
  {
    if n > 0 {
      ReadsLeft(chunks[1..], n - 1);
      assert chunks[1..][..n - 1] == chunks[..n][1..] && chunks[1..][n - 1..] == chunks[n..];
      Regroup(Normalized(chunks[0]), NormalizedAll(chunks[..n][1..]), NormalizedAll(chunks[n..]));
    }
  }

  // The first n reads and the read that follows them.
  lemma OneMoreRead(chunks: seq<string>, n: nat)
    requires n < |chunks|
    ensures NormalizedAll(chunks[..n + 1]) == NormalizedAll(chunks[..n]) + Normalized(chunks[n])
  {
    var some := chunks[..n + 1];
    ReadsLeft(some, n);
    assert some[..n] == chunks[..n] && some[n..] == [chunks[n]];
    OneRead(chunks[n]);
  }

  lemma HandleAppend<J>(js: Js<J>, a: string, b: string)
    ensures HandleAll(js, Frames(a + b)) == Then(HandleAll(js, Frames(a)), HandleAll(js, Frames(Rest(a) + b)))
    ensures Rest(a + b) == Rest(Rest(a) + b)
  {
    FramesAppend(a, b);
    HandleAllAppend(js, Frames(a), Frames(Rest(a) + b));
  }

  // streamChatCompletion, from the first read on: the callbacks depend on the text
  // the reads amount to, not on how it was cut.
  method StreamChat<J>(js: Js<J>, chunks: seq<string>, end: End) returns (calls: seq<Callback<J>>)
    ensures calls == Callbacks(js, NormalizedAll(chunks), end)
  {
    calls := [];
    var buffer := "";
    for n := 0 to |chunks|
      invariant HandleAll(js, Frames(NormalizedAll(chunks[..n]))) == Handled(calls, false)
      invariant Rest(NormalizedAll(chunks[..n])) == buffer
    {
      OneMoreRead(chunks, n);
      HandleAppend(js, NormalizedAll(chunks[..n]), Normalized(chunks[n]));
      var made, thrown;
      made, buffer, thrown := DrainFrames(js, buffer + Normalized(chunks[n]));
      calls := calls + made;
      if thrown {
        ReadsLeft(chunks, n + 1);
        HandleAppend(js, NormalizedAll(chunks[..n + 1]), NormalizedAll(chunks[n + 1..]));
        return calls + [OnError(js.typeError), OnDone];
      }
    }
    assert chunks[..|chunks|] == chunks;
    match end {
      case Closed =>
        if Trim(buffer) != "" {
          var last := HandleFrame(js, buffer);
          calls := calls + last.calls;
          if last.thrown {
            return calls + [OnError(js.typeError), OnDone];
          }
        }
      case Aborted =>
      case Broken(message) => return calls + [OnError(message), OnDone];
    }
    calls := calls + [OnDone];
  }
}
