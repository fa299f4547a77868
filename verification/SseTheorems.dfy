/** What encoder and parser promise together (internal/server/sse.go, web/src/sse.ts). */
module SseTheorems {
  import opened Prelude
  import opened Sse

  // ---------- reads and carriage returns ----------

  predicate CrFree(s: string) {
    '\r' !in s
  }

  lemma {:induction false} CrFreeNormal(s: string)
    requires CrFree(s)
    ensures Normalized(s) == s
  {
    if s != "" {
      CrFreeNormal(s[1..]);
    }
  }

  predicate EndsWith(s: string, c: char) {
    s != "" && s[|s| - 1] == c
  }

  // How often a cut falls between a carriage return and its line feed.
  function SplitPairs(chunks: seq<string>): nat {
    if chunks == [] then 0
    else (if Splits(chunks[0], Concat(chunks[1..])) then 1 else 0) + SplitPairs(chunks[1..])
  }

  predicate Splits(a: string, b: string) {
    EndsWith(a, '\r') && b != "" && b[0] == '\n'
  }

  lemma NormalStep(c: char, t: string)
    ensures Normalized([c] + t) == Kept(c, t) + Normalized(t)
  {
    assert ([c] + t)[1..] == t;
  }

  // A character before t, unless it is the carriage return of a line break.
  function Kept(c: char, t: string): string {
    if c == '\r' && t != "" && t[0] == '\n' then "" else [c]
  }

  // Normalizing a text in two parts misses a pair exactly when the cut splits it.
  lemma {:induction false} NormalizeAppend(a: string, b: string)
    ensures Splits(a, b) ==> |Normalized(a + b)| + 1 == |Normalized(a)| + |Normalized(b)|
    ensures !Splits(a, b) ==> Normalized(a + b) == Normalized(a) + Normalized(b)
    decreases |a|
  {
    if a == "" {
      assert a + b == b;
    } else {
      var c, t := a[0], a[1..];
      assert a == [c] + t && a + b == [c] + (t + b);
      NormalStep(c, t);
      NormalStep(c, t + b);
      if t == "" {
        assert t + b == b;
      } else {
        NormalizeAppend(t, b);
        assert Kept(c, t + b) == Kept(c, t);
        Regroup(Kept(c, t), Normalized(t), Normalized(b));
      }
    }
  }

  lemma {:induction false} SplitPairsCount(chunks: seq<string>)
    ensures |NormalizedAll(chunks)| == |Normalized(Concat(chunks))| + SplitPairs(chunks)
    ensures SplitPairs(chunks) == 0 ==> NormalizedAll(chunks) == Normalized(Concat(chunks))
  {
    if chunks != [] {
      SplitPairsCount(chunks[1..]);
      NormalizeAppend(chunks[0], Concat(chunks[1..]));
    }
  }

  // Read by read or all at once, the parser sees the same text if and only if no
  // read ends between the two characters of a line break.
  lemma SameTextIffNoSplit(chunks: seq<string>)
    ensures NormalizedAll(chunks) == Normalized(Concat(chunks)) <==> SplitPairs(chunks) == 0
  {
    SplitPairsCount(chunks);
  }

  lemma {:induction false} NoCrNoSplit(chunks: seq<string>)
    requires CrFree(Concat(chunks))
    ensures SplitPairs(chunks) == 0
  {
    if chunks != [] {
      assert forall i :: 0 <= i < |chunks[0]| ==> chunks[0][i] == Concat(chunks)[i];
      assert Concat(chunks[1..]) == Concat(chunks)[|chunks[0]|..];
      NoCrNoSplit(chunks[1..]);
    }
  }

  // Two ways of cutting one text free of carriage returns make the same callbacks.
  lemma CuttingDoesNotMatter<J>(js: Js<J>, one: seq<string>, other: seq<string>, end: End)
    requires Concat(one) == Concat(other) && CrFree(Concat(one))
    ensures Callbacks(js, NormalizedAll(one), end) == Callbacks(js, NormalizedAll(other), end)
    ensures NormalizedAll(one) == Concat(one)
  {
    NoCrNoSplit(one);
    NoCrNoSplit(other);
    SameTextIffNoSplit(one);
    SameTextIffNoSplit(other);
    CrFreeNormal(Concat(one));
  }

  // With line breaks of two characters it may: a cut inside the second pair of a
  // terminator joins two frames into one.
  lemma CuttingMatters()
    ensures var one, other := ["a\r\n\r\nb"], ["a\r\n\r", "\nb"];
            && Concat(one) == Concat(other)
            && Frames(NormalizedAll(one)) == ["a"]
            && Frames(NormalizedAll(other)) == []
  {
    assert Concat(["a\r\n\r\nb"]) == "a\r\n\r\nb";
    assert Concat(["a\r\n\r", "\nb"]) == "a\r\n\r" + Concat(["\nb"]);
    NormalizeWords();
    assert BlankAt("a\n\nb", 1);
    TerminatorIs("a\n\nb", 1);
    assert "a\n\nb" == "a" + "\n\n" + "b";
    FirstFrame("a", "b");
  }

  lemma NormalizeWords()
    ensures NormalizedAll(["a\r\n\r\nb"]) == "a\n\nb"
    ensures NormalizedAll(["a\r\n\r", "\nb"]) == "a\n\r\nb"
  {
    var other := ["a\r\n\r", "\nb"];
    assert other[1..] == ["\nb"];
    OneRead("a\r\n\r\nb");
    OneRead("\nb");
    Spell();
  }

  lemma Spell()
    ensures Normalized("a\r\n\r\nb") == "a\n\nb" && Normalized("a\r\n\r") == "a\n\r" && Normalized("\nb") == "\nb"
  {
    CrFreeNormal("\nb");
    var t3 := ['\r'] + "\nb";
    var t4 := ['\n'] + t3;
    var t5 := ['\r'] + t4;
    NormalStep('\r', "\nb");
    NormalStep('\n', t3);
    NormalStep('\r', t4);
    NormalStep('a', t5);
    assert ['a'] + t5 == "a\r\n\r\nb";
    SpellCut();
  }

  lemma SpellCut()
    ensures Normalized("a\r\n\r") == "a\n\r"
  {
    var t2 := ['\n'] + "\r";
    var t3 := ['\r'] + t2;
    NormalStep('\r', "");
    assert ['\r'] + "" == "\r";
    NormalStep('\n', "\r");
    NormalStep('\r', t2);
    NormalStep('a', t3);
    assert ['a'] + t3 == "a\r\n\r";
  }

  // ---------- round trip ----------

  // What the server means by a frame; written without looking at the parser.
  function Meaning<J>(js: Js<J>, f: Frame<J>): seq<Callback<J>> {
    match f
    case Delta(chunk) => Deltas(js, chunk)
    case Named(name, payload) =>
      if name == "tool_result" then [OnToolResult(payload)]
      else if name == "refine_round" then [OnRefineRound(payload)]
      else if name == "refine_summary" then [OnRefineSummary(payload)]
      else if name == "error" then [OnError(js.message(payload))]
      else Deltas(js, payload)
    case Comment(_) => []
    case Done => [OnDone]
  }

  function Deltas<J>(js: Js<J>, j: J): seq<Callback<J>> {
    if js.delta(j).Some? then [OnDelta(js.delta(j).value)] else []
  }

  function MeaningAll<J>(js: Js<J>, fs: seq<Frame<J>>): seq<Callback<J>> {
    if fs == [] then [] else Meaning(js, fs[0]) + MeaningAll(js, fs[1..])
  }

  // What the server writes: payloads that marshal, names and comments of one line.
  ghost predicate Writable<J>(js: Js<J>, f: Frame<J>) {
    match f
    case Delta(chunk) => Marshals(js, chunk) && !js.isNull(chunk)
    case Named(name, payload) => Marshals(js, payload) && !js.isNull(payload) && OneLine(name) &&
      Trim(" " + name) == name
    case Comment(text) => OneLine(text)
    case Done => true
  }

  // A frame without its terminator.
  function Body<J>(js: Js<J>, f: Frame<J>): string {
    match f
    case Delta(chunk) => "data: " + js.marshal(chunk)
    case Named(name, payload) => "event: " + name + "\ndata: " + js.marshal(payload)
    case Comment(text) => ": " + text
    case Done => "data: [DONE]"
  }

  lemma EncodeIsBody<J>(js: Js<J>, f: Frame<J>)
    ensures Encode(js, f) == Body(js, f) + "\n\n"
  {
  }

  // A body has no blank line and does not end in a line feed.
  lemma BodyEndsAtTerminator<J>(js: Js<J>, f: Frame<J>, more: string)
    requires Writable(js, f)
    ensures Terminator(Body(js, f) + "\n\n" + more) == |Body(js, f)|
  {
    var body := Body(js, f);
    var s := body + "\n\n" + more;
    assert s[|body|] == '\n' && s[|body| + 1] == '\n';
    forall k | 0 <= k < |body|
      ensures !BlankAt(s, k)
    {
      assert s[k] == body[k];
      if f.Named? && k == 7 + |f.name| {
        assert body[k + 1] == 'd';
        assert s[k + 1] == body[k + 1];
      } else {
        assert body[k] != '\n';
      }
    }
    TerminatorIs(s, |body|);
  }

  lemma OneLineLines(s: string)
    requires OneLine(s)
    ensures Lines(s) == [s]
  {
  }

  lemma TwoLines(a: string, b: string)
    requires OneLine(a) && OneLine(b)
    ensures Lines(a + "\n" + b) == [a, b]
  {
    var s := a + "\n" + b;
    var i := LineEnd(s);
    assert s[|a|] == '\n';
    assert forall k :: 0 <= k < |a| ==> s[k] != '\n';
    assert i == |a|;
    assert s[..i] == a && s[i + 1..] == b;
    assert i > 0 ==> s[i - 1] == a[i - 1];
    OneLineLines(b);
  }

  lemma DataLine(text: string, acc: Fields)
    requires text != "" && !IsSpace(text[0])
    ensures Collect(["data: " + text], acc) == acc.(data := acc.data + [text])
  {
    var line := "data: " + text;
    assert line[5..] == " " + text;
    assert (" " + text)[1..] == text;
    assert TrimStart(line[5..]) == TrimStart(text) == text;
    assert line[0] == 'd';
    var lines: seq<string> := [line];
    assert lines[1..] == [];
    assert StartsWith(line, "data:");
  }

  lemma DeltaRoundTrip<J>(js: Js<J>, chunk: J)
    requires Writable(js, Delta(chunk))
    ensures HandleText(js, Body(js, Delta(chunk))) == Handled(Meaning(js, Delta(chunk)), false)
  {
    OneLineLines("data: " + js.marshal(chunk));
    DataLine(js.marshal(chunk), Fields("message", []));
    assert [] + [js.marshal(chunk)] == [js.marshal(chunk)];
  }

  lemma CommentRoundTrip<J>(js: Js<J>, text: string)
    requires OneLine(text)
    ensures HandleText(js, ": " + text) == Handled([], false)
  {
    var line := ": " + text;
    OneLineLines(line);
    assert StartsWith(line, ":");
    assert Collect([line], Fields("message", [])) == Fields("message", []);
  }

  lemma DoneRoundTrip<J>(js: Js<J>)
    ensures HandleText(js, "data: [DONE]") == Handled([OnDone], false)
  {
    assert "data: [DONE]" == "data: " + "[DONE]";
    OneLineLines("data: " + "[DONE]");
    DataLine("[DONE]", Fields("message", []));
  }

  // Parsing the body of a frame gives what the server meant, and never throws.
  lemma BodyRoundTrip<J>(js: Js<J>, f: Frame<J>)
    requires Writable(js, f)
    ensures HandleText(js, Body(js, f)) == Handled(Meaning(js, f), false)
  {
    match f
    case Delta(chunk) => DeltaRoundTrip(js, chunk);
    case Named(name, payload) => NamedRoundTrip(js, name, payload);
    case Comment(text) => CommentRoundTrip(js, text);
    case Done => DoneRoundTrip(js);
  }

  lemma EventLine(name: string, more: seq<string>, acc: Fields)
    requires Trim(" " + name) == name
    ensures Collect(["event: " + name] + more, acc) == Collect(more, acc.(event := name))
  {
    var line := "event: " + name;
    var lines := [line] + more;
    assert lines[0] == line && lines[1..] == more;
    assert line[6..] == " " + name;
    assert line[0] == 'e' && StartsWith(line, "event:");
  }

  lemma NamedCollect(name: string, text: string)
    requires Trim(" " + name) == name && text != "" && !IsSpace(text[0])
    ensures Collect(["event: " + name, "data: " + text], Fields("message", [])) == Fields(name, [text])
  {
    assert ["event: " + name, "data: " + text] == ["event: " + name] + ["data: " + text];
    EventLine(name, ["data: " + text], Fields("message", []));
    DataLine(text, Fields(name, []));
  }

  lemma OneLineBehind(front: string, s: string)
    requires OneLine(front) && OneLine(s)
    ensures OneLine(front + s)
  {
  }

  lemma NamedFields(name: string, text: string)
    requires OneLine(name) && Trim(" " + name) == name && OneLine(text) && text != "" && !IsSpace(text[0])
    ensures Collect(Lines("event: " + name + "\n" + ("data: " + text)), Fields("message", [])) == Fields(name, [text])
  {
    OneLineBehind("event: ", name);
    OneLineBehind("data: ", text);
    TwoLines("event: " + name, "data: " + text);
    NamedCollect(name, text);
  }

  lemma NamedDispatch<J>(js: Js<J>, name: string, payload: J)
    requires Marshals(js, payload) && !js.isNull(payload)
    ensures HandleFields(js, Fields(name, [js.marshal(payload)])) == Handled(Meaning(js, Named(name, payload)), false)
  {
  }

  lemma NamedBody<J>(js: Js<J>, name: string, payload: J)
    ensures Body(js, Named(name, payload)) == "event: " + name + "\n" + ("data: " + js.marshal(payload))
  {
  }

  lemma NamedRoundTrip<J>(js: Js<J>, name: string, payload: J)
    requires Writable(js, Named(name, payload))
    ensures HandleText(js, Body(js, Named(name, payload))) == Handled(Meaning(js, Named(name, payload)), false)
  {
    NamedBody(js, name, payload);
    NamedFields(name, js.marshal(payload));
    NamedDispatch(js, name, payload);
  }

  // Whatever frames the server writes, the client reports exactly them, in order.
  lemma {:induction false} HandleEncoded<J>(js: Js<J>, fs: seq<Frame<J>>)
    requires forall i :: 0 <= i < |fs| ==> Writable(js, fs[i])
    ensures HandleAll(js, Frames(EncodeAll(js, fs))) == Handled(MeaningAll(js, fs), false)
    ensures Rest(EncodeAll(js, fs)) == ""
  {
    if fs != [] {
      var body, more := Body(js, fs[0]), EncodeAll(js, fs[1..]);
      EncodeIsBody(js, fs[0]);
      assert EncodeAll(js, fs) == body + "\n\n" + more;
      BodyEndsAtTerminator(js, fs[0], more);
      FirstFrame(body, more);
      HandleEncoded(js, fs[1..]);
      BodyRoundTrip(js, fs[0]);
      assert Frames(EncodeAll(js, fs))[0] == body && Frames(EncodeAll(js, fs))[1..] == Frames(more);
    }
  }

  lemma OneLineIsCrFree(s: string)
    requires OneLine(s)
    ensures CrFree(s)
  {
  }

  lemma EncodeIsCrFree<J>(js: Js<J>, f: Frame<J>)
    requires Writable(js, f)
    ensures CrFree(Encode(js, f)) && CrFree(Body(js, f))
  {
    EncodeIsBody(js, f);
    match f
    case Delta(chunk) => OneLineIsCrFree(js.marshal(chunk));
    case Named(name, payload) =>
      OneLineIsCrFree(name);
      OneLineIsCrFree(js.marshal(payload));
    case Comment(text) => OneLineIsCrFree(text);
    case Done =>
  }

  lemma {:induction false} EncodedIsCrFree<J>(js: Js<J>, fs: seq<Frame<J>>)
    requires forall i :: 0 <= i < |fs| ==> Writable(js, fs[i])
    ensures CrFree(EncodeAll(js, fs))
  {
    if fs != [] {
      EncodeIsCrFree(js, fs[0]);
      EncodedIsCrFree(js, fs[1..]);
    }
  }

  // The round trip, for every way the network cuts what the server wrote.
  lemma RoundTrip<J>(js: Js<J>, fs: seq<Frame<J>>, chunks: seq<string>)
    requires forall i :: 0 <= i < |fs| ==> Writable(js, fs[i])
    requires Concat(chunks) == EncodeAll(js, fs)
    ensures Callbacks(js, NormalizedAll(chunks), Closed) == MeaningAll(js, fs) + [OnDone]
  {
    EncodedIsCrFree(js, fs);
    CuttingDoesNotMatter(js, chunks, chunks, Closed);
    HandleEncoded(js, fs);
  }

  // ---------- a body that ends in the middle ----------

  ghost predicate White(s: string) {
    forall i :: 0 <= i < |s| ==> IsSpace(s[i])
  }

  // Trimming takes white space only, and all there is at the ends.
  lemma {:induction false} TrimStartMeans(s: string)
    ensures TrimStart(s) == "" <==> White(s)
    ensures TrimStart(s) != "" ==> !IsSpace(TrimStart(s)[0])
    ensures exists w :: White(w) && s == w + TrimStart(s)
  {
    if s != "" && IsSpace(s[0]) {
      TrimStartMeans(s[1..]);
      var w :| White(w) && s[1..] == w + TrimStart(s[1..]);
      assert White([s[0]] + w) && s == [s[0]] + w + TrimStart(s);
      assert White(s) ==> White(s[1..]);
      if White(s[1..]) {
        assert s == [s[0]] + s[1..];
      }
    } else {
      assert White("") && s == "" + TrimStart(s);
      assert s != "" ==> !White(s);
    }
  }

  lemma {:induction false} TrimEndMeans(s: string)
    ensures TrimEnd(s) == "" <==> White(s)
    ensures TrimEnd(s) != "" ==> !IsSpace(TrimEnd(s)[|TrimEnd(s)| - 1])
    ensures exists w :: White(w) && s == TrimEnd(s) + w
  {
    if s != "" && IsSpace(s[|s| - 1]) {
      var n := |s| - 1;
      TrimEndMeans(s[..n]);
      var w :| White(w) && s[..n] == TrimEnd(s[..n]) + w;
      assert White(w + [s[n]]) && s == TrimEnd(s) + (w + [s[n]]);
      assert White(s) ==> White(s[..n]);
      if White(s[..n]) {
        assert s == s[..n] + [s[n]];
      }
    } else {
      assert White("") && s == TrimEnd(s) + "";
      assert s != "" ==> !White(s);
    }
  }

  lemma TrimMeans(s: string)
    ensures Trim(s) == "" <==> White(s)
  {
    TrimStartMeans(s);
    TrimEndMeans(TrimStart(s));
    var w :| White(w) && s == w + TrimStart(s);
    if White(TrimStart(s)) {
      assert White(w + TrimStart(s));
    }
  }

  lemma {:induction false} WhiteLines(s: string)
    requires White(s)
    ensures forall i :: 0 <= i < |Lines(s)| ==> White(Lines(s)[i])
    decreases |s|
  {
    var i := LineEnd(s);
    if i < |s| {
      WhiteLines(s[i + 1..]);
    }
  }

  lemma {:induction false} WhiteCollect(lines: seq<string>, acc: Fields)
    requires forall i :: 0 <= i < |lines| ==> White(lines[i])
    ensures Collect(lines, acc) == acc
  {
    if lines != [] {
      var line := lines[0];
      assert line != "" ==> IsSpace(line[0]) && line[0] != 'e' && line[0] != 'd';
      WhiteCollect(lines[1..], acc);
    }
  }

  lemma WhiteHandled<J>(js: Js<J>, s: string)
    requires White(s)
    ensures HandleText(js, s) == Handled([], false)
  {
    WhiteLines(s);
    WhiteCollect(Lines(s), Fields("message", []));
  }

  lemma {:induction false} WhiteFrames<J>(js: Js<J>, s: string)
    requires White(s)
    ensures HandleAll(js, Frames(s)) == Handled([], false) && White(Rest(s))
    decreases |s|
  {
    var i := Terminator(s);
    if i < |s| {
      WhiteHandled(js, s[..i]);
      WhiteFrames(js, s[i + 2..]);
      assert Frames(s)[0] == s[..i] && Frames(s)[1..] == Frames(s[i + 2..]);
    }
  }

  // Frames, and white space only behind them.
  lemma WhiteRest<J>(js: Js<J>, fs: seq<Frame<J>>, w: string)
    requires AllWritable(js, fs) && White(w)
    ensures Callbacks(js, EncodeAll(js, fs) + w, Closed) == MeaningAll(js, fs) + [OnDone]
  {
    HandleEncoded(js, fs);
    HandleAppend(js, EncodeAll(js, fs), w);
    assert "" + w == w;
    WhiteFrames(js, w);
    TrimMeans(Rest(w));
    assert MeaningAll(js, fs) + [] == MeaningAll(js, fs);
  }

  // A text without a blank line is no frame yet.
  lemma NoFrame(s: string)
    requires forall k :: 0 <= k < |s| - 1 ==> !(s[k] == '\n' && s[k + 1] == '\n')
    ensures Frames(s) == [] && Rest(s) == s
  {
  }

  lemma BehindFrames<J>(js: Js<J>, fs: seq<Frame<J>>, r: string)
    requires AllWritable(js, fs)
    requires forall k :: 0 <= k < |r| - 1 ==> !(r[k] == '\n' && r[k + 1] == '\n')
    ensures HandleAll(js, Frames(EncodeAll(js, fs) + r)) == Handled(MeaningAll(js, fs), false)
    ensures Rest(EncodeAll(js, fs) + r) == r
  {
    HandleEncoded(js, fs);
    HandleAppend(js, EncodeAll(js, fs), r);
    assert "" + r == r;
    NoFrame(r);
    assert MeaningAll(js, fs) + [] == MeaningAll(js, fs);
  }

  lemma BodyIsNoFrame<J>(js: Js<J>, f: Frame<J>)
    requires Writable(js, f)
    ensures var s := Body(js, f); forall k :: 0 <= k < |s| - 1 ==> !(s[k] == '\n' && s[k + 1] == '\n')
    ensures !White(Body(js, f))
  {
    var s := Body(js, f);
    BodyEndsAtTerminator(js, f, "");
    forall k | 0 <= k < |s| - 1
      ensures !(s[k] == '\n' && s[k + 1] == '\n')
    {
      assert !BlankAt(s + "\n\n" + "", k);
    }
    assert !IsSpace(s[0]);
  }

  // The last frame counts without a blank line behind it, however the text is cut.
  lemma LastFrame<J>(js: Js<J>, fs: seq<Frame<J>>, f: Frame<J>, chunks: seq<string>)
    requires AllWritable(js, fs) && Writable(js, f) && Concat(chunks) == EncodeAll(js, fs) + Body(js, f)
    ensures Callbacks(js, NormalizedAll(chunks), Closed) == MeaningAll(js, fs) + Meaning(js, f) + [OnDone]
  {
    EncodedIsCrFree(js, fs);
    EncodeIsCrFree(js, f);
    CuttingDoesNotMatter(js, chunks, chunks, Closed);
    BodyIsNoFrame(js, f);
    BehindFrames(js, fs, Body(js, f));
    TrimMeans(Body(js, f));
    BodyRoundTrip(js, f);
  }

  // White space behind the frames adds nothing, however the text is cut.
  lemma LastWhite<J>(js: Js<J>, fs: seq<Frame<J>>, w: string, chunks: seq<string>)
    requires AllWritable(js, fs) && White(w) && CrFree(w) && Concat(chunks) == EncodeAll(js, fs) + w
    ensures Callbacks(js, NormalizedAll(chunks), Closed) == MeaningAll(js, fs) + [OnDone]
  {
    EncodedIsCrFree(js, fs);
    CuttingDoesNotMatter(js, chunks, chunks, Closed);
    WhiteRest(js, fs, w);
  }

  // What is not ended by a blank line is dropped when the body is aborted or breaks.
  lemma Unfinished<J>(js: Js<J>, fs: seq<Frame<J>>, r: string, chunks: seq<string>)
    requires AllWritable(js, fs) && CrFree(r) && Concat(chunks) == EncodeAll(js, fs) + r
    requires forall k :: 0 <= k < |r| - 1 ==> !(r[k] == '\n' && r[k + 1] == '\n')
    ensures Callbacks(js, NormalizedAll(chunks), Aborted) == MeaningAll(js, fs) + [OnDone]
    ensures forall m ::
              Callbacks(js, NormalizedAll(chunks), Broken(m)) == MeaningAll(js, fs) + [OnError(m), OnDone]
  {
    EncodedIsCrFree(js, fs);
    CuttingDoesNotMatter(js, chunks, chunks, Aborted);
    forall m
      ensures Callbacks(js, NormalizedAll(chunks), Broken(m)) == MeaningAll(js, fs) + [OnError(m), OnDone]
    {
      CuttingDoesNotMatter(js, chunks, chunks, Broken(m));
      BehindFrames(js, fs, r);
    }
    BehindFrames(js, fs, r);
  }

  // ---------- frames the server does not write ----------

  // Where the data lines stand.
  ghost predicate DataAt(lines: seq<string>, at: seq<nat>) {
    && (forall k :: 0 <= k < |at| ==> at[k] < |lines| && "data:" <= lines[at[k]])
    && (forall k, l :: 0 <= k < l < |at| ==> at[k] < at[l])
    && forall i :: 0 <= i < |lines| && "data:" <= lines[i] ==> i in at
  }

  // The event is named by the last event line.
  ghost predicate EventIs(lines: seq<string>, event: string) {
    if exists i :: 0 <= i < |lines| && "event:" <= lines[i]
      then exists i :: 0 <= i < |lines| && "event:" <= lines[i] && event == Trim(lines[i][6..]) &&
             forall j :: i < j < |lines| ==> !("event:" <= lines[j])
      else event == "message"
  }

  function DataOf(lines: seq<string>, at: seq<nat>): (r: seq<string>)
    requires forall k :: 0 <= k < |at| ==> at[k] < |lines| && "data:" <= lines[at[k]]
    ensures |r| == |at| && forall k :: 0 <= k < |at| ==> r[k] == TrimStart(lines[at[k]][5..])
  {
    seq(|at|, k requires 0 <= k < |at| => TrimStart(lines[at[k]][5..]))
  }

  lemma CollectLast(lines: seq<string>, line: string, acc: Fields)
    ensures Collect(lines + [line], acc) == Collect([line], Collect(lines, acc))
    decreases |lines|
  {
    if lines == [] {
      assert [] + [line] == [line];
    } else {
      assert (lines + [line])[1..] == lines[1..] + [line];
      CollectLast(lines[1..], line, Collect([lines[0]], acc));
      assert [lines[0]][1..] == [];
    }
  }

  lemma LineKinds(line: string)
    ensures "data:" <= line ==> line != "" && !StartsWith(line, ":") && !StartsWith(line, "event:")
    ensures "event:" <= line ==> line != "" && !StartsWith(line, ":")
  {
    assert "data:" <= line ==> line[0] == 'd';
    assert "event:" <= line ==> line[0] == 'e';
  }

  lemma EventMore(lines: seq<string>, line: string, event: string)
    requires EventIs(lines, event)
    ensures EventIs(lines + [line], if "event:" <= line then Trim(line[6..]) else event)
  {
    var more := lines + [line];
    assert more[|lines|] == line;
    if !("event:" <= line) {
      if exists i :: 0 <= i < |lines| && "event:" <= lines[i] {
        var i :| 0 <= i < |lines| && "event:" <= lines[i] && event == Trim(lines[i][6..]) &&
          forall j :: i < j < |lines| ==> !("event:" <= lines[j]);
        assert more[i] == lines[i];
        assert forall j :: i < j < |more| ==> !("event:" <= more[j]);
      } else {
        assert forall i :: 0 <= i < |more| ==> !("event:" <= more[i]);
      }
    }
  }

  lemma DataMore(lines: seq<string>, line: string, at: seq<nat>)
    requires DataAt(lines, at)
    ensures var more := if "data:" <= line then at + [|lines|] else at;
            DataAt(lines + [line], more) &&
            DataOf(lines + [line], more) == DataOf(lines, at) + if "data:" <= line then [TrimStart(line[5..])] else []
  {
    var all, more := lines + [line], if "data:" <= line then at + [|lines|] else at;
    forall k | 0 <= k < |more|
      ensures more[k] < |all| && all[more[k]] == if k < |at| then lines[at[k]] else line
    {
    }
    forall i | 0 <= i < |all| && "data:" <= all[i]
      ensures i in more
    {
      if i == |lines| {
        assert more[|at|] == i;
      } else {
        assert i in at;
      }
    }
  }

  lemma CollectOne(line: string, acc: Fields)
    ensures Collect([line], acc) ==
            Fields(if "event:" <= line then Trim(line[6..]) else acc.event,
                   acc.data + if "data:" <= line then [TrimStart(line[5..])] else [])
  {
    LineKinds(line);
    assert [line][1..] == [];
    assert acc.data + [] == acc.data;
  }

  // The fields of these lines.
  ghost predicate FieldsOf(lines: seq<string>, at: seq<nat>, fields: Fields) {
    DataAt(lines, at) && fields.data == DataOf(lines, at) && EventIs(lines, fields.event)
  }

  lemma FieldsMore(lines: seq<string>, line: string, at: seq<nat>, fields: Fields)
    requires FieldsOf(lines, at, fields)
    ensures FieldsOf(lines + [line], if "data:" <= line then at + [|lines|] else at, Collect([line], fields))
  {
    CollectOne(line, fields);
    EventMore(lines, line, fields.event);
    DataMore(lines, line, at);
  }

  // Line by line: the data lines count in order, white space in front taken off, and the last
  // event line; every other line is nothing.
  lemma {:induction false} CollectMeans(lines: seq<string>) returns (at: seq<nat>)
    ensures FieldsOf(lines, at, Collect(lines, Fields("message", [])))
  {
    if lines == [] {
      at := [];
    } else {
      var before, line := lines[..|lines| - 1], lines[|lines| - 1];
      at := CollectMeans(before);
      assert lines == before + [line];
      FieldsMore(before, line, at, Collect(before, Fields("message", [])));
      CollectLast(before, line, Fields("message", []));
      at := if "data:" <= line then at + [|before|] else at;
    }
  }

  // What the fields of a frame make: data that are not JSON make nothing, and a null is an
  // exception, but for the events that pass their payload on.
  lemma FieldsMean<J>(js: Js<J>, event: string, data: seq<string>)
    ensures data == [] ==> HandleFields(js, Fields(event, data)) == Handled([], false)
    ensures data != [] && Join(data, "\n") == "[DONE]" ==>
              HandleFields(js, Fields(event, data)) == Handled([OnDone], false)
    ensures data != [] && Join(data, "\n") != "[DONE]" && js.parse(Join(data, "\n")).None? ==>
              HandleFields(js, Fields(event, data)) == Handled([], false)
    ensures data != [] && Join(data, "\n") != "[DONE]" && js.parse(Join(data, "\n")).Some? ==>
              var j, h := js.parse(Join(data, "\n")).value, HandleFields(js, Fields(event, data));
              && (event == "tool_result" ==> h == Handled([OnToolResult(j)], false))
              && (event == "refine_round" ==> h == Handled([OnRefineRound(j)], false))
              && (event == "refine_summary" ==> h == Handled([OnRefineSummary(j)], false))
              && (event !in {"tool_result", "refine_round", "refine_summary"} ==>
                   && (js.isNull(j) ==> h == Handled([], true))
                   && (!js.isNull(j) && event == "error" ==> h == Handled([OnError(js.message(j))], false))
                   && (!js.isNull(j) && event != "error" && js.delta(j).Some? ==>
                        h == Handled([OnDelta(js.delta(j).value)], false))
                   && (!js.isNull(j) && event != "error" && js.delta(j).None? ==> h == Handled([], false)))
  {
  }

  // A null payload of such a frame ends the stream with the error of the exception.
  lemma NullEndsStream<J>(js: Js<J>, pre: seq<Frame<J>>, chunk: J, post: seq<Frame<J>>, end: End)
    requires AllWritable(js, pre) && AllWritable(js, post) && Marshals(js, chunk) && js.isNull(chunk)
    ensures Callbacks(js, EncodeAll(js, pre) + (Encode(js, Delta(chunk)) + EncodeAll(js, post)), end) ==
            MeaningAll(js, pre) + [OnError(js.typeError), OnDone]
  {
    var x := "data: " + js.marshal(chunk);
    OneLineBehind("data: ", js.marshal(chunk));
    OneLineLines(x);
    DataLine(js.marshal(chunk), Fields("message", []));
    assert [] + [js.marshal(chunk)] == [js.marshal(chunk)];
    forall k | 0 <= k < |x|
      ensures !BlankAt(x + "\n\n", k)
    {
      assert (x + "\n\n")[k] == x[k];
    }
    CallbacksAround(js, pre, x, post, end);
    assert Encode(js, Delta(chunk)) + EncodeAll(js, post) == x + "\n\n" + EncodeAll(js, post);
  }

  // ---------- a cut that changes what is reported ----------

  // The two line breaks after a frame, read whole and cut before the last character.
  lemma BreaksRead(body: string)
    requires CrFree(body)
    ensures Concat([body + "\r\n\r\n"]) == Concat([body + "\r\n\r", "\n"])
    ensures NormalizedAll([body + "\r\n\r\n"]) == body + "\n\n"
    ensures NormalizedAll([body + "\r\n\r", "\n"]) == body + "\n\r\n"
  {
    var cut := [body + "\r\n\r", "\n"];
    assert cut[1..] == ["\n"];
    assert body + "\r\n\r" + "\n" == body + "\r\n\r\n";
    OneRead(body + "\r\n\r\n");
    OneRead("\n");
    CrFreeNormal(body);
    CrFreeNormal("\n");
    NormalizeAppend(body, "\r\n\r\n");
    NormalizeAppend(body, "\r\n\r");
    SpellBreaks();
    assert body + "\n\r" + "\n" == body + "\n\r\n";
  }

  lemma SpellBreaks()
    ensures Normalized("\r\n\r\n") == "\n\n" && Normalized("\r\n\r") == "\n\r"
  {
    assert Normalized("\n") == "\n" by { CrFreeNormal("\n"); }
    NormalStep('\r', "\n");
    NormalStep('\n', "\r\n");
    NormalStep('\r', "\n\r\n");
    NormalStep('\r', "");
    NormalStep('\n', "\r");
    NormalStep('\r', "\n\r");
    assert ['\r'] + "\n\r\n" == "\r\n\r\n" && ['\n'] + "\r\n" == "\n\r\n" && ['\r'] + "\n" == "\r\n";
    assert ['\r'] + "\n\r" == "\r\n\r" && ['\n'] + "\r" == "\n\r" && ['\r'] + "" == "\r";
  }

  // A frame whose line breaks have two characters, before a connection that breaks: read
  // whole it is reported, cut before its last character it is not.
  lemma CutLosesFrame<J>(js: Js<J>, f: Frame<J>, message: string)
    requires Writable(js, f)
    ensures var whole, cut := [Body(js, f) + "\r\n\r\n"], [Body(js, f) + "\r\n\r", "\n"];
            && Concat(whole) == Concat(cut)
            && Callbacks(js, NormalizedAll(whole), Broken(message)) == Meaning(js, f) + [OnError(message), OnDone]
            && Callbacks(js, NormalizedAll(cut), Broken(message)) == [OnError(message), OnDone]
  {
    var body := Body(js, f);
    EncodeIsCrFree(js, f);
    BreaksRead(body);
    BodyEndsAtTerminator(js, f, "");
    assert body + "\n\n" + "" == body + "\n\n";
    FirstFrame(body, "");
    BodyRoundTrip(js, f);
    assert HandleAll(js, [body]) == Handled(Meaning(js, f), false);
    NoTerminator(js, f);
  }

  lemma NoTerminator<J>(js: Js<J>, f: Frame<J>)
    requires Writable(js, f)
    ensures Frames(Body(js, f) + "\n\r\n") == []
  {
    var body := Body(js, f);
    var s := body + "\n\r\n";
    BodyEndsAtTerminator(js, f, "");
    var t := body + "\n\n" + "";
    forall k | 0 <= k < |s|
      ensures !BlankAt(s, k)
    {
      if k < |body| {
        assert !BlankAt(t, k) && s[k] == t[k] && s[k + 1] == t[k + 1];
      }
    }
  }

  // Such a codec: one value, written 0.
  function Zero(): Js<bool> {
    Js(_ => "0", s => if s == "0" then Some(false) else None, _ => false, _ => "", _ => Some(false), "")
  }

  lemma CutLosesDelta()
    ensures var whole, cut := ["data: 0" + "\r\n\r\n"], ["data: 0" + "\r\n\r", "\n"];
            && Concat(whole) == Concat(cut)
            && Callbacks(Zero(), NormalizedAll(whole), Broken("reset")) == [OnDelta(false), OnError("reset"), OnDone]
            && Callbacks(Zero(), NormalizedAll(cut), Broken("reset")) == [OnError("reset"), OnDone]
  {
    CutLosesFrame(Zero(), Delta(false), "reset");
    assert Body(Zero(), Delta(false)) == "data: 0";
    assert Meaning(Zero(), Delta(false)) == [OnDelta(false)];
    assert [OnDelta(false)] + [OnError("reset"), OnDone] == [OnDelta(false), OnError("reset"), OnDone];
  }

  // ---------- which splits change what is reported ----------

  lemma TwoReads(a: string, b: string)
    ensures Concat([a, b]) == a + b && NormalizedAll([a, b]) == Normalized(a) + Normalized(b)
  {
    assert [a, b][1..] == [b] && [b][1..] == [];
    assert Concat([b]) == b + "" == b;
    OneRead(b);
  }

  // A cut between the two characters of a line break leaves its carriage return.
  lemma OneSplit(p: string, q: string)
    ensures Concat([p + "\r", "\n" + q]) == p + "\r\n" + q
    ensures NormalizedAll([p + "\r", "\n" + q]) == Normalized(p) + "\r\n" + Normalized(q)
    ensures Normalized(p + "\r\n" + q) == Normalized(p) + "\n" + Normalized(q)
  {
    TwoReads(p + "\r", "\n" + q);
    assert p + "\r" + ("\n" + q) == p + "\r\n" + q == p + ("\r\n" + q);
    NormalizeAppend(p, "\r");
    NormalizeAppend(p, "\r\n" + q);
    NormalStep('\r', "");
    NormalStep('\n', q);
    NormalStep('\r', "\n" + q);
    assert ['\r'] + "" == "\r" && ['\n'] + q == "\n" + q && ['\r'] + ("\n" + q) == "\r\n" + q;
  }

  // Read without a split, a text makes the callbacks of the text with bare line feeds.
  lemma UnsplitIsPlain<J>(js: Js<J>, chunks: seq<string>, end: End)
    requires SplitPairs(chunks) == 0
    ensures Callbacks(js, NormalizedAll(chunks), end) == Callbacks(js, Normalized(Concat(chunks)), end)
  {
    SameTextIffNoSplit(chunks);
  }

  // So frames whose line breaks have two characters arrive too, if no read splits one.
  lemma CrLfRoundTrip<J>(js: Js<J>, fs: seq<Frame<J>>, chunks: seq<string>)
    requires forall i :: 0 <= i < |fs| ==> Writable(js, fs[i])
    requires Normalized(Concat(chunks)) == EncodeAll(js, fs) && SplitPairs(chunks) == 0
    ensures Callbacks(js, NormalizedAll(chunks), Closed) == MeaningAll(js, fs) + [OnDone]
  {
    UnsplitIsPlain(js, chunks, Closed);
    HandleEncoded(js, fs);
  }

  // The frame of this text ends at the first blank line that follows it.
  ghost predicate FrameText(x: string) {
    forall k :: 0 <= k < |x| ==> !BlankAt(x + "\n\n", k)
  }

  lemma FrameEnds(x: string, more: string)
    requires FrameText(x)
    ensures Terminator(x + "\n\n" + more) == |x|
  {
    var s := x + "\n\n" + more;
    assert BlankAt(s, |x|);
    forall k | 0 <= k < |x|
      ensures !BlankAt(s, k)
    {
      assert !BlankAt(x + "\n\n", k);
    }
    TerminatorIs(s, |x|);
  }

  ghost predicate AllWritable<J>(js: Js<J>, fs: seq<Frame<J>>) {
    forall i :: 0 <= i < |fs| ==> Writable(js, fs[i])
  }

  function Tail<J>(end: End): seq<Callback<J>> {
    match end
    case Broken(message) => [OnError(message), OnDone]
    case _ => [OnDone]
  }

  // A stream in which x stands between frames that are written.
  function Around<J>(js: Js<J>, pre: seq<Frame<J>>, x: string, post: seq<Frame<J>>): string {
    EncodeAll(js, pre) + (x + "\n\n" + EncodeAll(js, post))
  }

  // The text that a cut inside a line break makes of such a stream: u and v are what
  // stands before the carriage return and from it on, in place of x.
  lemma SplitIsAround<J>(js: Js<J>, p: string, q: string, pre: seq<Frame<J>>, u: string, v: string,
                         post: seq<Frame<J>>)
    requires Normalized(p) == EncodeAll(js, pre) + u && "\r\n" + Normalized(q) == v + "\n\n" + EncodeAll(js, post)
    ensures NormalizedAll([p + "\r", "\n" + q]) == Around(js, pre, u + v, post)
  {
    OneSplit(p, q);
    Spliced(EncodeAll(js, pre), u, "\r\n", Normalized(q), v, "\n\n", EncodeAll(js, post));
  }

  lemma Spliced(e: string, u: string, m: string, n: string, v: string, t: string, f: string)
    requires m + n == v + t + f
    ensures e + u + m + n == e + (u + v + t + f)
  {
    assert e + u + m + n == e + u + (m + n);
  }

  lemma AroundHandled<J>(js: Js<J>, pre: seq<Frame<J>>, x: string, post: seq<Frame<J>>)
    requires AllWritable(js, pre) && AllWritable(js, post) && FrameText(x)
    ensures HandleAll(js, Frames(Around(js, pre, x, post))) ==
            Then(Handled(MeaningAll(js, pre), false), Then(HandleText(js, x), Handled(MeaningAll(js, post), false)))
    ensures Rest(Around(js, pre, x, post)) == ""
  {
    var more := EncodeAll(js, post);
    HandleEncoded(js, pre);
    HandleEncoded(js, post);
    HandleAppend(js, EncodeAll(js, pre), x + "\n\n" + more);
    assert "" + (x + "\n\n" + more) == x + "\n\n" + more;
    FrameEnds(x, more);
    FirstFrame(x, more);
    assert Frames(x + "\n\n" + more)[1..] == Frames(more);
  }

  lemma {:induction false} MeaningAppend<J>(js: Js<J>, a: seq<Frame<J>>, b: seq<Frame<J>>)
    ensures MeaningAll(js, a + b) == MeaningAll(js, a) + MeaningAll(js, b)
  {
    if a == [] {
      assert a + b == b;
    } else {
      assert (a + b)[0] == a[0] && (a + b)[1..] == a[1..] + b;
      MeaningAppend(js, a[1..], b);
    }
  }

  lemma SameBehind<T>(a: seq<T>, x: seq<T>, y: seq<T>)
    ensures a + x == a + y <==> x == y
  {
    if a + x == a + y {
      assert x == (a + x)[|a|..] && y == (a + y)[|a|..];
    }
  }

  lemma Cancel<T>(a: seq<T>, x: seq<T>, y: seq<T>, b: seq<T>)
    ensures a + x + b == a + y + b <==> x == y
  {
    if a + x + b == a + y + b {
      assert |x| == |y|;
      assert x == (a + x + b)[|a|..|a| + |x|] && y == (a + y + b)[|a|..|a| + |y|];
    }
  }

  // What the page sees from a frame on: an exception ends the stream.
  function Shown<J>(js: Js<J>, h: Handled<J>, post: seq<Frame<J>>, end: End): seq<Callback<J>> {
    h.calls + if h.thrown then [OnError(js.typeError), OnDone] else MeaningAll(js, post) + Tail(end)
  }

  lemma CallbacksAround<J>(js: Js<J>, pre: seq<Frame<J>>, x: string, post: seq<Frame<J>>, end: End)
    requires AllWritable(js, pre) && AllWritable(js, post) && FrameText(x)
    ensures Callbacks(js, Around(js, pre, x, post), end) ==
            MeaningAll(js, pre) + Shown(js, HandleText(js, x), post, end)
  {
    AroundHandled(js, pre, x, post);
    var a, h, b := MeaningAll(js, pre), HandleText(js, x), MeaningAll(js, post);
    if h.thrown {
      ThrowingFrames(js, Around(js, pre, x, post), a + h.calls, end);
      Regroup(a, h.calls, [OnError(js.typeError), OnDone]);
    } else {
      WholeFrames(js, Around(js, pre, x, post), a + (h.calls + b), end);
      Regroup(a, h.calls, b);
      Regroup(a + h.calls, b, Tail(end));
      Regroup(a, h.calls, b + Tail(end));
    }
  }

  lemma ThrowingFrames<J>(js: Js<J>, text: string, calls: seq<Callback<J>>, end: End)
    requires HandleAll(js, Frames(text)) == Handled(calls, true)
    ensures Callbacks(js, text, end) == calls + [OnError(js.typeError), OnDone]
  {
  }

  lemma WholeFrames<J>(js: Js<J>, text: string, calls: seq<Callback<J>>, end: End)
    requires HandleAll(js, Frames(text)) == Handled(calls, false) && Rest(text) == ""
    ensures Callbacks(js, text, end) == calls + Tail(end)
  {
  }

  lemma CallbacksWritten<J>(js: Js<J>, fs: seq<Frame<J>>, end: End)
    requires AllWritable(js, fs)
    ensures Callbacks(js, EncodeAll(js, fs), end) == MeaningAll(js, fs) + Tail(end)
  {
    HandleEncoded(js, fs);
  }

  lemma WritableTogether<J>(js: Js<J>, a: seq<Frame<J>>, b: seq<Frame<J>>)
    requires AllWritable(js, a) && AllWritable(js, b)
    ensures AllWritable(js, a + b)
  {
  }

  lemma WrittenInParts<J>(js: Js<J>, pre: seq<Frame<J>>, mid: seq<Frame<J>>, post: seq<Frame<J>>, end: End)
    requires AllWritable(js, pre) && AllWritable(js, mid) && AllWritable(js, post)
    ensures Callbacks(js, EncodeAll(js, pre + mid + post), end) ==
            MeaningAll(js, pre) + MeaningAll(js, mid) + (MeaningAll(js, post) + Tail(end))
  {
    WritableTogether(js, pre, mid);
    WritableTogether(js, pre + mid, post);
    CallbacksWritten(js, pre + mid + post, end);
    MeaningAppend(js, pre + mid, post);
    MeaningAppend(js, pre, mid);
    Regroup(MeaningAll(js, pre) + MeaningAll(js, mid), MeaningAll(js, post), Tail(end));
  }

  // A frame read in place of others shows the same: it makes their callbacks, or it throws
  // and ends the stream as they and the rest of it would have.
  ghost predicate ShowsSame<J>(js: Js<J>, h: Handled<J>, mid: seq<Frame<J>>, post: seq<Frame<J>>, end: End) {
    if h.thrown
      then Shown(js, h, post, end) == MeaningAll(js, mid) + (MeaningAll(js, post) + Tail(end))
      else h.calls == MeaningAll(js, mid)
  }

  lemma SameShown<J>(js: Js<J>, h: Handled<J>, mid: seq<Frame<J>>, post: seq<Frame<J>>, end: End)
    ensures ShowsSame(js, h, mid, post, end) <==>
            Shown(js, h, post, end) == MeaningAll(js, mid) + (MeaningAll(js, post) + Tail(end))
  {
    if !h.thrown {
      Cancel([], h.calls, MeaningAll(js, mid), MeaningAll(js, post) + Tail(end));
      assert [] + h.calls == h.calls && [] + MeaningAll(js, mid) == MeaningAll(js, mid);
    }
  }

  // What is read as x in place of frames changes the callbacks exactly if it is not
  // handled as they are.
  lemma ReadInstead<J>(js: Js<J>, pre: seq<Frame<J>>, x: string, mid: seq<Frame<J>>, post: seq<Frame<J>>, end: End)
    requires AllWritable(js, pre) && AllWritable(js, mid) && AllWritable(js, post)
    requires FrameText(x)
    ensures Callbacks(js, Around(js, pre, x, post), end) == Callbacks(js, EncodeAll(js, pre + mid + post), end) <==>
            ShowsSame(js, HandleText(js, x), mid, post, end)
  {
    var h := HandleText(js, x);
    CallbacksAround(js, pre, x, post, end);
    WrittenInParts(js, pre, mid, post, end);
    Regroup(MeaningAll(js, pre), MeaningAll(js, mid), MeaningAll(js, post) + Tail(end));
    SameBehind(MeaningAll(js, pre), Shown(js, h, post, end), MeaningAll(js, mid) + (MeaningAll(js, post) + Tail(end)));
    SameShown(js, h, mid, post, end);
  }

  lemma MeaningOfOne<J>(js: Js<J>, f: Frame<J>)
    ensures MeaningAll(js, [f]) == Meaning(js, f)
  {
    assert [f][1..] == [];
  }

  lemma TwoLinesCr(a: string, b: string)
    requires OneLine(a) && OneLine(b)
    ensures Lines(a + "\r\n" + b) == [a, b]
  {
    var s := a + "\r\n" + b;
    assert s[|a| + 1] == '\n' && s[|a|] == '\r';
    assert forall k :: 0 <= k <= |a| ==> s[k] != '\n';
    assert LineEnd(s) == |a| + 1;
    assert s[..|a|] == a && s[|a| + 2..] == b;
    OneLineLines(b);
  }

  lemma SameLines<J>(js: Js<J>, s: string, t: string)
    requires Lines(s) == Lines(t)
    ensures HandleText(js, s) == HandleText(js, t)
  {
  }

  lemma InnerLines(a: string, b: string)
    requires OneLine(a) && OneLine(b)
    ensures Lines(a + "\r\n" + b) == Lines(a + "\n" + b)
  {
    TwoLinesCr(a, b);
    TwoLines(a, b);
  }

  lemma InnerHandled<J>(js: Js<J>, name: string, payload: J)
    requires Writable(js, Named(name, payload))
    ensures HandleText(js, "event: " + name + "\r\n" + ("data: " + js.marshal(payload))) ==
            Handled(Meaning(js, Named(name, payload)), false)
  {
    var event, data := "event: " + name, "data: " + js.marshal(payload);
    InnerLines(event, data);
    NamedBody(js, name, payload);
    SameLines(js, event + "\r\n" + data, Body(js, Named(name, payload)));
    NamedRoundTrip(js, name, payload);
  }

  // Inside a named frame: such a split never changes anything.
  lemma InnerSplit<J>(js: Js<J>, pre: seq<Frame<J>>, name: string, payload: J, post: seq<Frame<J>>, end: End)
    requires AllWritable(js, pre) && AllWritable(js, post) && Writable(js, Named(name, payload))
    ensures var x := "event: " + name + "\r\n" + ("data: " + js.marshal(payload));
            Callbacks(js, Around(js, pre, x, post), end) ==
            Callbacks(js, EncodeAll(js, pre + [Named(name, payload)] + post), end)
  {
    var f, x := Named(name, payload), "event: " + name + "\r\n" + ("data: " + js.marshal(payload));
    InnerHandled(js, name, payload);
    OneLineBehind("event: ", name);
    OneLineBehind("data: ", js.marshal(payload));
    InnerIsFrame("event: " + name, "data: " + js.marshal(payload));
    InsteadOfOne(js, pre, x, f, post, end);
  }

  lemma InsteadOfOne<J>(js: Js<J>, pre: seq<Frame<J>>, x: string, f: Frame<J>, post: seq<Frame<J>>, end: End)
    requires AllWritable(js, pre) && Writable(js, f) && AllWritable(js, post)
    requires FrameText(x) && HandleText(js, x) == Handled(Meaning(js, f), false)
    ensures Callbacks(js, Around(js, pre, x, post), end) == Callbacks(js, EncodeAll(js, pre + [f] + post), end)
  {
    MeaningOfOne(js, f);
    ReadInstead(js, pre, x, [f], post, end);
  }

  lemma InnerIsFrame(a: string, b: string)
    requires OneLine(a) && OneLine(b)
    ensures b != "" ==> FrameText(a + "\r\n" + b)
  {
    var x := a + "\r\n" + b;
    forall k | 0 <= k < |x| && b != ""
      ensures !BlankAt(x + "\n\n", k)
    {
      if k == |a| + 1 {
        assert (x + "\n\n")[k + 1] == b[0];
      }
    }
  }

  lemma BodyIsFrame<J>(js: Js<J>, f: Frame<J>)
    requires Writable(js, f)
    ensures FrameText(Body(js, f)) && Body(js, f) != "" && Body(js, f)[|Body(js, f)| - 1] != '\n'
  {
    var body := Body(js, f);
    BodyEndsAtTerminator(js, f, "");
    assert body + "\n\n" + "" == body + "\n\n";
    if body[|body| - 1] == '\n' {
      assert BlankAt(body + "\n\n", |body| - 1);
    }
  }

  lemma BehindReturn(x: string)
    requires FrameText(x) && x != "" && x[|x| - 1] != '\n'
    ensures FrameText(x + "\r")
  {
    forall k | 0 <= k < |x + "\r"|
      ensures !BlankAt(x + "\r" + "\n\n", k)
    {
      assert k < |x| ==> !BlankAt(x + "\n\n", k);
    }
  }

  // In the first line break behind a frame: the frame is read with a carriage return.
  lemma FirstSplit<J>(js: Js<J>, pre: seq<Frame<J>>, f: Frame<J>, post: seq<Frame<J>>, end: End)
    requires AllWritable(js, pre) && AllWritable(js, post) && Writable(js, f)
    ensures Callbacks(js, Around(js, pre, Body(js, f) + "\r", post), end) ==
            Callbacks(js, EncodeAll(js, pre + [f] + post), end) <==>
            ShowsSame(js, HandleText(js, Body(js, f) + "\r"), [f], post, end)
  {
    BodyIsFrame(js, f);
    BehindReturn(Body(js, f));
    MeaningOfOne(js, f);
    ReadInstead(js, pre, Body(js, f) + "\r", [f], post, end);
  }

  // So the done frame is lost, if its text does not parse.
  lemma DoneUnread<J>(js: Js<J>)
    requires js.parse("[DONE]" + "\r").None?
    ensures HandleText(js, Body(js, Done) + "\r") == Handled([], false)
    ensures HandleText(js, Body(js, Done) + "\r").calls != Meaning(js, Done)
  {
    var text := "[DONE]" + "\r";
    assert Body(js, Done) + "\r" == "data: " + text;
    NoFeedLines("data: " + text);
    DataLine(text, Fields("message", []));
    assert [] + [text] == [text] && text[6] == '\r';
  }

  lemma NoFeedLines(s: string)
    requires '\n' !in s
    ensures Lines(s) == [s]
  {
  }

  // In the second line break behind a frame: the frame is joined with the next one.
  lemma SecondSplit<J>(js: Js<J>, pre: seq<Frame<J>>, f: Frame<J>, g: Frame<J>, post: seq<Frame<J>>, end: End)
    requires AllWritable(js, pre) && AllWritable(js, post) && Writable(js, f) && Writable(js, g)
    ensures var x := Body(js, f) + "\n\r\n" + Body(js, g);
            Callbacks(js, Around(js, pre, x, post), end) == Callbacks(js, EncodeAll(js, pre + [f, g] + post), end) <==>
            ShowsSame(js, HandleText(js, x), [f, g], post, end)
  {
    var x := Body(js, f) + "\n\r\n" + Body(js, g);
    BodyIsFrame(js, f);
    BodyIsFrame(js, g);
    JoinedIsFrame(Body(js, f), Body(js, g));
    MeaningOfOne(js, g);
    assert [f, g][1..] == [g];
    ReadInstead(js, pre, x, [f, g], post, end);
  }

  lemma JoinedIsFrame(a: string, b: string)
    requires FrameText(a) && a != "" && a[|a| - 1] != '\n' && FrameText(b) && b != "" && b[0] != '\n'
    ensures FrameText(a + "\n\r\n" + b)
  {
    var x := a + "\n\r\n" + b;
    forall k | 0 <= k < |x|
      ensures !BlankAt(x + "\n\n", k)
    {
      if k < |a| {
        assert !BlankAt(a + "\n\n", k);
      } else if k >= |a| + 3 {
        assert !BlankAt(b + "\n\n", k - |a| - 3);
      }
    }
  }
}
