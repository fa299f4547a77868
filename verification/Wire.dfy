/** The translation of a conversation into Anthropic's turns and back
    (internal/llm/anthropic/client.go: buildRequest, and the blocks of Chat). */
module Wire {
  import opened Prelude
  import opened Llm

  datatype Block =
    | Text(text: string)
    | Picture(mediaType: string, data: string)
    | ToolUse(id: string, name: string, input: string)
    | ToolResult(toolUseID: string, content: string)

  datatype Side = UserSide | AssistantSide

  datatype Turn = Turn(side: Side, content: seq<Block>)

  datatype Request = Request(system: string, turns: seq<Turn>)

  const EMPTY_OBJECT := "{}"

  function InputOf(arguments: string): string {
    if arguments == "" then EMPTY_OBJECT else arguments
  }

  function Pictures(images: seq<Image>): seq<Block> {
    if images == [] then []
    else
      [Picture(if images[0].mimeType == "" then "image/png" else images[0].mimeType, images[0].data)] +
      Pictures(images[1..])
  }

  function Uses(calls: seq<ToolCall>): (r: seq<Block>)
    ensures |r| == |calls|
    ensures forall i :: 0 <= i < |calls| ==> r[i] == ToolUse(calls[i].id, calls[i].name, InputOf(calls[i].arguments))
  {
    if calls == [] then [] else [ToolUse(calls[0].id, calls[0].name, InputOf(calls[0].arguments))] + Uses(calls[1..])
  }

  // The blocks a message contributes to the wire; a system message contributes none.
  function Blocks(m: Message): seq<Block> {
    match m.role
    case System => []
    case Tool => [ToolResult(m.toolCallID, m.content)]
    case _ => (if m.content == "" then [] else [Text(m.content)]) + Pictures(m.images) + Uses(m.toolCalls)
  }

  // What a message shows: its text, if it has any, its pictures, and its calls; a result shows
  // itself.
  lemma BlocksMean(m: Message)
    ensures m.role == System ==> Blocks(m) == []
    ensures m.role == Tool ==> Blocks(m) == [ToolResult(m.toolCallID, m.content)]
    ensures m.role == User || m.role == Assistant ==>
              var t := if m.content == "" then 0 else 1;
              && |Blocks(m)| == t + |m.images| + |m.toolCalls|
              && (t == 1 ==> Blocks(m)[0] == Text(m.content))
              && (forall i :: 0 <= i < |m.images| ==>
                    Blocks(m)[t + i] ==
                    Picture(if m.images[i].mimeType == "" then "image/png" else m.images[i].mimeType, m.images[i].data))
              && forall i :: 0 <= i < |m.toolCalls| ==>
                   Blocks(m)[t + |m.images| + i] ==
                   ToolUse(m.toolCalls[i].id, m.toolCalls[i].name,
                           if m.toolCalls[i].arguments == "" then "{}" else m.toolCalls[i].arguments)
  {
    PicturesMean(m.images);
  }

  lemma {:induction false} PicturesMean(images: seq<Image>)
    ensures |Pictures(images)| == |images|
    ensures forall i :: 0 <= i < |images| ==>
              Pictures(images)[i] ==
              Picture(if images[i].mimeType == "" then "image/png" else images[i].mimeType, images[i].data)
  {
    if images != [] {
      PicturesMean(images[1..]);
    }
  }

  function AllBlocks(msgs: seq<Message>): seq<Block> {
    if msgs == [] then [] else Blocks(msgs[0]) + AllBlocks(msgs[1..])
  }

  function TurnBlocks(turns: seq<Turn>): seq<Block> {
    if turns == [] then [] else turns[0].content + TurnBlocks(turns[1..])
  }

  // ---------- the loop, step by step ----------

  datatype State = State(done: seq<Turn>, current: Option<Turn>)

  function Flush(s: State): State {
    State(Closed(s), None)
  }

  function Closed(s: State): seq<Turn> {
    if s.current.Some? then s.done + [s.current.value] else s.done
  }

  function Step(s: State, m: Message): State {
    match m.role
    case System => s
    case Tool =>
      var t := if s.current.Some? && s.current.value.side == UserSide then s
          else Flush(s).(current := Some(Turn(UserSide, [])));
      t.(current := Some(t.current.value.(content := t.current.value.content + Blocks(m))))
    case _ => Flush(s).(current := Some(Turn(if m.role == Assistant then AssistantSide else UserSide, Blocks(m))))
  }

  function Run(s: State, msgs: seq<Message>): State
    decreases |msgs|
  {
    if msgs == [] then s else Run(Step(s, msgs[0]), msgs[1..])
  }

  function Translate(msgs: seq<Message>): seq<Turn> {
    Closed(Run(State([], None), msgs))
  }

  // The non-empty system texts, joined by blank lines.
  function SystemText(msgs: seq<Message>): seq<string> {
    if msgs == [] then []
    else SystemPart(msgs[0]) + SystemText(msgs[1..])
  }

  function SystemPart(m: Message): seq<string> {
    if m.role == System && m.content != "" then [m.content] else []
  }

  lemma {:induction false} RunAppend(s: State, a: seq<Message>, b: seq<Message>)
    ensures Run(s, a + b) == Run(Run(s, a), b)
    decreases |a|
  {
    if a == [] {
      assert a + b == b;
    } else {
      assert (a + b)[0] == a[0] && (a + b)[1..] == a[1..] + b;
      RunAppend(Step(s, a[0]), a[1..], b);
    }
  }

  lemma {:induction false} SystemTextAppend(a: seq<Message>, b: seq<Message>)
    ensures SystemText(a + b) == SystemText(a) + SystemText(b)
  {
    if a == [] {
      assert a + b == b;
    } else {
      assert (a + b)[0] == a[0] && (a + b)[1..] == a[1..] + b;
      SystemTextAppend(a[1..], b);
    }
  }

  // The positions of the system messages that have a text.
  ghost predicate SystemAt(msgs: seq<Message>, at: seq<nat>) {
    && (forall k :: 0 <= k < |at| ==>
          at[k] < |msgs| && msgs[at[k]].role == System && msgs[at[k]].content != "")
    && (forall k, l :: 0 <= k < l < |at| ==> at[k] < at[l])
    && forall i :: 0 <= i < |msgs| && msgs[i].role == System && msgs[i].content != "" ==> i in at
  }

  function TextsAt(msgs: seq<Message>, at: seq<nat>): (r: seq<string>)
    requires forall k :: 0 <= k < |at| ==> at[k] < |msgs|
    ensures |r| == |at| && forall k :: 0 <= k < |at| ==> r[k] == msgs[at[k]].content
  {
    seq(|at|, k requires 0 <= k < |at| => msgs[at[k]].content)
  }

  lemma SystemAtMore(msgs: seq<Message>, at: seq<nat>, last: Message)
    requires SystemAt(msgs, at)
    ensures var more := if last.role == System && last.content != "" then at + [|msgs|] else at;
            SystemAt(msgs + [last], more) && TextsAt(msgs + [last], more) == TextsAt(msgs, at) + SystemPart(last)
  {
    var more := if last.role == System && last.content != "" then at + [|msgs|] else at;
    forall k | 0 <= k < |more|
      ensures more[k] < |msgs| + 1 && (msgs + [last])[more[k]] == if k < |at| then msgs[at[k]] else last
    {
    }
    forall i | 0 <= i < |msgs + [last]| && (msgs + [last])[i].role == System && (msgs + [last])[i].content != ""
      ensures i in more
    {
      if i == |msgs| {
        assert more[|at|] == i;
      } else {
        assert i in at;
      }
    }
  }

  lemma {:induction false} SystemTextMeans(msgs: seq<Message>) returns (at: seq<nat>)
    ensures SystemAt(msgs, at) && SystemText(msgs) == TextsAt(msgs, at)
  {
    at := [];
    if msgs != [] {
      var before, last := msgs[..|msgs| - 1], msgs[|msgs| - 1];
      at := SystemTextMeans(before);
      assert msgs == before + [last] && [last][1..] == [];
      SystemTextAppend(before, [last]);
      assert SystemText([last]) == SystemPart(last);
      SystemAtMore(before, at, last);
      at := if last.role == System && last.content != "" then at + [|before|] else at;
    }
  }

  lemma {:induction false} Spread(at: seq<nat>, k: nat)
    requires k < |at| && forall k, l :: 0 <= k < l < |at| ==> at[k] < at[l]
    ensures at[k] >= at[0] + k
  {
    if k > 0 {
      Spread(at, k - 1);
    }
  }

  // The only system message with a text.
  ghost predicate OnlySystem(msgs: seq<Message>, i: nat)
    requires i < |msgs|
  {
    && msgs[i].role == System && msgs[i].content != ""
    && forall j :: 0 <= j < |msgs| && msgs[j].role == System && msgs[j].content != "" ==> j == i
  }

  // One system message with a text is the system text.
  lemma OneSystemText(msgs: seq<Message>, at: seq<nat>, i: nat)
    requires SystemAt(msgs, at) && i < |msgs| && OnlySystem(msgs, i)
    ensures Join(TextsAt(msgs, at), "\n\n") == msgs[i].content
  {
    assert i in at;
    Spread(at, |at| - 1);
    assert at == [i];
    assert TextsAt(msgs, at) == [msgs[i].content];
  }

  // One more message.
  lemma OneMoreMessage(msgs: seq<Message>, i: nat)
    requires i < |msgs|
    ensures Run(State([], None), msgs[..i + 1]) == Step(Run(State([], None), msgs[..i]), msgs[i])
    ensures SystemText(msgs[..i + 1]) == SystemText(msgs[..i]) + SystemPart(msgs[i])
  {
    var one := [msgs[i]];
    assert msgs[..i + 1] == msgs[..i] + one && one[1..] == [];
    RunAppend(State([], None), msgs[..i], one);
    assert Run(Run(State([], None), msgs[..i]), one) == Step(Run(State([], None), msgs[..i]), msgs[i]);
    SystemTextAppend(msgs[..i], one);
    assert SystemText(one) == SystemPart(msgs[i]);
  }

  // One message of the loop; a system message leaves the turns alone.
  method AddMessage(out: seq<Turn>, current: Option<Turn>, m: Message)
    returns (out': seq<Turn>, current': Option<Turn>)
    ensures State(out', current') == Step(State(out, current), m)
  {
    out', current' := out, current;
    match m.role {
      case System =>
      case Tool =>
        if current.None? || current.value.side != UserSide {
          if current.Some? {
            out' := out + [current.value];
          }
          current' := Some(Turn(UserSide, []));
        }
        current' := Some(current'.value.(content := current'.value.content + [ToolResult(m.toolCallID, m.content)]));
      case _ =>
        if current.Some? {
          out' := out + [current.value];
        }
        var content := if m.content != "" then [Text(m.content)] else [];
        content := content + Pictures(m.images) + Uses(m.toolCalls);
        current' := Some(Turn(if m.role == Assistant then AssistantSide else UserSide, content));
    }
  }

  // buildRequest, as far as the messages go.
  method BuildRequest(msgs: seq<Message>) returns (r: Request)
    ensures r.turns == Translate(msgs)
    // The system text joins the texts of the system messages, each once and in order.
    ensures exists at: seq<nat> :: SystemAt(msgs, at) && r.system == Join(TextsAt(msgs, at), "\n\n")
    ensures forall i :: 0 <= i < |msgs| && OnlySystem(msgs, i) ==> r.system == msgs[i].content
  {
    var systemParts: seq<string> := [];
    var out: seq<Turn> := [];
    var current: Option<Turn> := None;
    for i := 0 to |msgs|
      invariant State(out, current) == Run(State([], None), msgs[..i])
      invariant systemParts == SystemText(msgs[..i])
    {
      OneMoreMessage(msgs, i);
      systemParts := systemParts + SystemPart(msgs[i]);
      out, current := AddMessage(out, current, msgs[i]);
    }
    assert msgs[..|msgs|] == msgs;
    if current.Some? {
      out := out + [current.value];
    }
    r := Request(Join(systemParts, "\n\n"), out);
    ghost var at := SystemTextMeans(msgs);
    forall i | 0 <= i < |msgs| && OnlySystem(msgs, i)
      ensures r.system == msgs[i].content
    {
      OneSystemText(msgs, at, i);
    }
  }

  // ---------- which messages share a turn ----------

  function Spoken(msgs: seq<Message>): seq<Message> {
    if msgs == [] then [] else (if msgs[0].role == System then [] else [msgs[0]]) + Spoken(msgs[1..])
  }

  function Flat(groups: seq<seq<Message>>): seq<Message> {
    if groups == [] then [] else groups[0] + Flat(groups[1..])
  }

  // An assistant message has a turn of its own; results share the user turn before them, be
  // it of a user message or of results, and begin one behind an assistant turn only.
  ghost predicate GroupAfter(previous: seq<Message>, group: seq<Message>) {
    group != [] &&
    var first := group[0];
    && first.role != System && (forall k :: 0 < k < |group| ==> group[k].role == Tool)
    && (first.role == Assistant ==> |group| == 1)
    && (first.role == Tool ==> previous == [] || previous[0].role == Assistant)
  }

  ghost predicate GroupAt(groups: seq<seq<Message>>, g: nat) {
    g < |groups| && GroupAfter(if g == 0 then [] else groups[g - 1], groups[g])
  }

  ghost predicate TurnOf(t: Turn, group: seq<Message>) {
    && t.content == AllBlocks(group)
    && group != [] && (t.side == AssistantSide <==> group[0].role == Assistant)
  }

  ghost predicate Grouping(turns: seq<Turn>, groups: seq<seq<Message>>) {
    |turns| == |groups| &&
    forall g {:trigger GroupAt(groups, g)} :: 0 <= g < |groups| ==> GroupAt(groups, g) && TurnOf(turns[g], groups[g])
  }

  lemma {:induction false} SpokenAppend(a: seq<Message>, b: seq<Message>)
    ensures Spoken(a + b) == Spoken(a) + Spoken(b)
  {
    if a == [] {
      assert a + b == b;
    } else {
      assert (a + b)[1..] == a[1..] + b;
      SpokenAppend(a[1..], b);
    }
  }

  lemma {:induction false} FlatAppend(a: seq<seq<Message>>, b: seq<seq<Message>>)
    ensures Flat(a + b) == Flat(a) + Flat(b)
  {
    if a == [] {
      assert a + b == b;
    } else {
      assert (a + b)[1..] == a[1..] + b;
      FlatAppend(a[1..], b);
    }
  }

  lemma {:induction false} AllBlocksAppend(a: seq<Message>, b: seq<Message>)
    ensures AllBlocks(a + b) == AllBlocks(a) + AllBlocks(b)
  {
    if a == [] {
      assert a + b == b;
    } else {
      assert (a + b)[1..] == a[1..] + b;
      AllBlocksAppend(a[1..], b);
    }
  }

  lemma FlatLast(groups: seq<seq<Message>>, group: seq<Message>)
    ensures Flat(groups + [group]) == Flat(groups) + group
  {
    assert [group][1..] == [] && Flat([group]) == group + Flat([]);
    FlatAppend(groups, [group]);
  }

  // Whether a message joins the turn before it.
  predicate Joins(s: State, m: Message) {
    m.role == Tool && s.current.Some? && s.current.value.side == UserSide
  }

  // What a message does to the turns.
  lemma StepTurns(s: State, m: Message)
    requires m.role != System
    ensures Step(s, m).current.Some?
    ensures Joins(s, m) ==>
              Closed(Step(s, m)) == s.done + [Turn(UserSide, s.current.value.content + Blocks(m))]
    ensures !Joins(s, m) ==>
              Closed(Step(s, m)) ==
              Closed(s) + [Turn(if m.role == Assistant then AssistantSide else UserSide, Blocks(m))]
  {
    assert [] + Blocks(m) == Blocks(m);
  }

  lemma BlocksOfOne(m: Message)
    ensures AllBlocks([m]) == Blocks(m)
  {
    assert [m][1..] == [];
  }

  function LastOf(groups: seq<seq<Message>>): seq<Message> {
    if groups == [] then [] else groups[|groups| - 1]
  }

  lemma GroupKept(groups: seq<seq<Message>>, group: seq<Message>, g: nat)
    requires g < |groups|
    ensures GroupAt(groups + [group], g) <==> GroupAt(groups, g)
  {
    var more := groups + [group];
    assert more[g] == groups[g] && (g > 0 ==> more[g - 1] == groups[g - 1]);
  }

  lemma GroupLast(groups: seq<seq<Message>>, group: seq<Message>)
    ensures GroupAt(groups + [group], |groups|) <==> GroupAfter(LastOf(groups), group)
  {
    var more := groups + [group];
    assert more[|groups|] == group && (groups != [] ==> more[|groups| - 1] == LastOf(groups));
  }

  lemma GroupingJoins(turns: seq<Turn>, t: Turn, groups: seq<seq<Message>>, group: seq<Message>)
    requires Grouping(turns, groups) && TurnOf(t, group) && GroupAfter(LastOf(groups), group)
    ensures Grouping(turns + [t], groups + [group])
  {
    var next, more := turns + [t], groups + [group];
    forall g | 0 <= g < |more|
      ensures GroupAt(more, g) && TurnOf(next[g], more[g])
    {
      if g < |groups| {
        GroupKept(groups, group, g);
        assert GroupAt(groups, g) && next[g] == turns[g] && more[g] == groups[g];
      } else {
        GroupLast(groups, group);
        assert next[g] == t && more[g] == group;
      }
    }
  }

  lemma GroupingSplits(turns: seq<Turn>, t: Turn, groups: seq<seq<Message>>, group: seq<Message>)
    requires Grouping(turns + [t], groups + [group])
    ensures Grouping(turns, groups) && TurnOf(t, group) && GroupAfter(LastOf(groups), group)
  {
    var was := groups + [group];
    assert GroupAt(was, |groups|) && (turns + [t])[|groups|] == t;
    GroupLast(groups, group);
    forall g | 0 <= g < |groups|
      ensures GroupAt(groups, g) && TurnOf(turns[g], groups[g])
    {
      assert GroupAt(was, g) && (turns + [t])[g] == turns[g] && was[g] == groups[g];
      GroupKept(groups, group, g);
    }
  }

  // A message that begins a turn.
  lemma GroupBegins(turns: seq<Turn>, groups: seq<seq<Message>>, m: Message)
    requires Grouping(turns, groups) && m.role != System
    requires m.role == Tool ==> LastOf(groups) == [] || LastOf(groups)[0].role == Assistant
    ensures Grouping(turns + [Turn(if m.role == Assistant then AssistantSide else UserSide, Blocks(m))],
                     groups + [[m]])
  {
    BlocksOfOne(m);
    GroupingJoins(turns, Turn(if m.role == Assistant then AssistantSide else UserSide, Blocks(m)), groups, [m]);
  }

  lemma TurnGrows(t: Turn, group: seq<Message>, m: Message)
    requires TurnOf(t, group) && m.role == Tool && t.side == UserSide
    ensures TurnOf(Turn(UserSide, t.content + Blocks(m)), group + [m])
  {
    BlocksOfOne(m);
    AllBlocksAppend(group, [m]);
  }

  // A result that joins a user turn.
  lemma GroupGrows(turns: seq<Turn>, t: Turn, groups: seq<seq<Message>>, group: seq<Message>, m: Message)
    requires Grouping(turns + [t], groups + [group]) && m.role == Tool && t.side == UserSide
    ensures Grouping(turns + [Turn(UserSide, t.content + Blocks(m))], groups + [group + [m]])
  {
    GroupingSplits(turns, t, groups, group);
    TurnGrows(t, group, m);
    GroupingJoins(turns, Turn(UserSide, t.content + Blocks(m)), groups, group + [m]);
  }

  // The turns are those of the messages, system messages apart, group by group.
  lemma {:induction false} TurnsAreGroups(msgs: seq<Message>) returns (groups: seq<seq<Message>>)
    ensures Flat(groups) == Spoken(msgs) && Grouping(Translate(msgs), groups)
    ensures Run(State([], None), msgs).current.Some? <==> groups != []
  {
    groups := [];
    if msgs != [] {
      var before, m := msgs[..|msgs| - 1], msgs[|msgs| - 1];
      var s := Run(State([], None), before);
      groups := TurnsAreGroups(before);
      assert msgs == before + [m] && [m][1..] == [];
      RunAppend(State([], None), before, [m]);
      assert Run(s, [m]) == Step(s, m);
      SpokenAppend(before, [m]);
      assert Spoken([m]) == if m.role == System then [] else [m];
      groups := WithMessage(s, groups, m);
    }
  }

  lemma WithMessage(s: State, groups: seq<seq<Message>>, m: Message) returns (more: seq<seq<Message>>)
    requires Grouping(Closed(s), groups) && (s.current.Some? <==> groups != [])
    ensures Grouping(Closed(Step(s, m)), more) && (Step(s, m).current.Some? <==> more != [])
    ensures Flat(more) == Flat(groups) + if m.role == System then [] else [m]
  {
    if m.role == System {
      more := groups;
    } else {
      StepTurns(s, m);
      if Joins(s, m) {
        var n := |groups| - 1;
        assert groups == groups[..n] + [groups[n]];
        GroupGrows(s.done, s.current.value, groups[..n], groups[n], m);
        more := groups[..n] + [groups[n] + [m]];
        FlatLast(groups[..n], groups[n] + [m]);
        FlatLast(groups[..n], groups[n]);
      } else {
        LastSide(s, groups);
        GroupBegins(Closed(s), groups, m);
        more := groups + [[m]];
        FlatLast(groups, [m]);
      }
    }
  }

  // The side of the current turn is that of the last group.
  lemma LastSide(s: State, groups: seq<seq<Message>>)
    requires Grouping(Closed(s), groups) && (s.current.Some? <==> groups != [])
    ensures groups != [] ==> groups[|groups| - 1] != []
    ensures groups != [] && s.current.value.side != UserSide ==> groups[|groups| - 1][0].role == Assistant
  {
    var n := |groups| - 1;
    assert groups != [] ==> GroupAt(groups, n) && TurnOf(Closed(s)[n], groups[n]);
  }

  // ---------- tool use and tool result on the wire ----------

  function UseIds(content: seq<Block>): seq<string> {
    if content == [] then [] else (if content[0].ToolUse? then [content[0].id] else []) + UseIds(content[1..])
  }

  ghost predicate NoResults(content: seq<Block>) {
    forall i :: 0 <= i < |content| ==> !content[i].ToolResult?
  }

  // A user turn that holds the results for ids, in order, and nothing else.
  ghost predicate ResultsFor(t: Turn, ids: seq<string>) {
    t.side == UserSide && |t.content| == |ids| &&
    forall i :: 0 <= i < |ids| ==> t.content[i].ToolResult? && t.content[i].toolUseID == ids[i]
  }

  // Every assistant turn with tool uses is immediately followed by one user turn with
  // exactly their results; results appear nowhere else.
  ghost predicate WirePaired(turns: seq<Turn>)
    decreases |turns|
  {
    turns == [] ||
    if UseIds(turns[0].content) == [] then NoResults(turns[0].content) && WirePaired(turns[1..])
    else
      && turns[0].side == AssistantSide && NoResults(turns[0].content)
      && |turns| >= 2 && ResultsFor(turns[1], UseIds(turns[0].content))
      && WirePaired(turns[2..])
  }

  lemma {:induction false} WirePairedAppend(a: seq<Turn>, b: seq<Turn>)
    requires WirePaired(a) && WirePaired(b)
    ensures WirePaired(a + b)
    decreases |a|
  {
    if a == [] {
      assert a + b == b;
    } else if UseIds(a[0].content) == [] {
      assert (a + b)[1..] == a[1..] + b;
      WirePairedAppend(a[1..], b);
    } else {
      assert (a + b)[2..] == a[2..] + b;
      WirePairedAppend(a[2..], b);
    }
  }

  lemma {:induction false} UseIdsAppend(a: seq<Block>, b: seq<Block>)
    ensures UseIds(a + b) == UseIds(a) + UseIds(b)
  {
    if a == [] {
      assert a + b == b;
    } else {
      assert (a + b)[0] == a[0] && (a + b)[1..] == a[1..] + b;
      UseIdsAppend(a[1..], b);
    }
  }

  lemma {:induction false} UseIdsOfUses(calls: seq<ToolCall>)
    ensures |UseIds(Uses(calls))| == |calls|
    ensures forall i :: 0 <= i < |calls| ==> UseIds(Uses(calls))[i] == calls[i].id
  {
    if calls != [] {
      assert Uses(calls)[1..] == Uses(calls[1..]);
      UseIdsOfUses(calls[1..]);
    }
  }

  lemma {:induction false} PicturesUseNothing(images: seq<Image>)
    ensures UseIds(Pictures(images)) == [] && NoResults(Pictures(images))
  {
    if images != [] {
      PicturesUseNothing(images[1..]);
      assert Pictures(images)[1..] == Pictures(images[1..]);
    }
  }

  // A message that is no result shows its calls, in order, and no results.
  lemma BlocksOfMessage(m: Message)
    requires m.role != Tool && m.role != System
    ensures NoResults(Blocks(m)) && |UseIds(Blocks(m))| == |m.toolCalls|
    ensures forall i :: 0 <= i < |m.toolCalls| ==> UseIds(Blocks(m))[i] == m.toolCalls[i].id
  {
    var text := if m.content == "" then [] else [Text(m.content)];
    var shown := text + Pictures(m.images);
    PicturesUseNothing(m.images);
    assert UseIds(text) == [] && NoResults(shown);
    UseIdsAppend(text, Pictures(m.images));
    ThenCalls(shown, m.toolCalls);
  }

  lemma ThenCalls(shown: seq<Block>, calls: seq<ToolCall>)
    requires UseIds(shown) == [] && NoResults(shown)
    ensures NoResults(shown + Uses(calls)) && |UseIds(shown + Uses(calls))| == |calls|
    ensures forall i :: 0 <= i < |calls| ==> UseIds(shown + Uses(calls))[i] == calls[i].id
  {
    UseIdsOfUses(calls);
    UseIdsAppend(shown, Uses(calls));
    assert UseIds(shown + Uses(calls)) == UseIds(Uses(calls));
  }

  // The results of one group gather in one user turn.
  lemma {:induction false} GatherResults(s: State, results: seq<Message>)
    requires s.current.Some? && s.current.value.side == UserSide
    requires forall i :: 0 <= i < |results| ==> results[i].role == Tool
    ensures Run(s, results).done == s.done && Run(s, results).current.Some?
    ensures var t := Run(s, results).current.value;
            && t.side == UserSide && |t.content| == |s.current.value.content| + |results|
            && t.content[..|s.current.value.content|] == s.current.value.content
            && forall i :: 0 <= i < |results| ==>
                 t.content[|s.current.value.content| + i] == ToolResult(results[i].toolCallID, results[i].content)
    decreases |results|
  {
    if results != [] {
      var next := Step(s, results[0]);
      GatherResults(next, results[1..]);
      assert Run(s, results) == Run(next, results[1..]);
      var t := Run(s, results).current.value;
      assert t.content[|s.current.value.content|] == next.current.value.content[|s.current.value.content|];
    }
  }

  lemma PlainTurn(t: Turn)
    requires UseIds(t.content) == [] && NoResults(t.content)
    ensures WirePaired([t])
  {
    assert [t][1..] == [];
  }

  lemma PairOfTurns(a: Turn, u: Turn)
    requires a.side == AssistantSide && NoResults(a.content) && UseIds(a.content) != [] &&
             ResultsFor(u, UseIds(a.content))
    ensures WirePaired([a, u])
  {
    assert [a, u][2..] == [];
  }

  // After an assistant turn its results open and fill one user turn.
  lemma ResultsTurn(t: State, results: seq<Message>) returns (last: Turn)
    requires t.current.Some? && t.current.value.side == AssistantSide && results != []
    requires forall i :: 0 <= i < |results| ==> results[i].role == Tool
    ensures Run(t, results) == State(Closed(t), Some(last))
    ensures last.side == UserSide && |last.content| == |results|
    ensures forall i :: 0 <= i < |results| ==> last.content[i] == ToolResult(results[i].toolCallID, results[i].content)
  {
    var u := Step(t, results[0]);
    assert [] + Blocks(results[0]) == Blocks(results[0]);
    assert u == State(Closed(t), Some(Turn(UserSide, Blocks(results[0]))));
    GatherResults(u, results[1..]);
    assert Run(t, results) == Run(u, results[1..]);
    last := Run(u, results[1..]).current.value;
    forall i | 0 <= i < |results|
      ensures last.content[i] == ToolResult(results[i].toolCallID, results[i].content)
    {
      if i > 0 {
        assert last.content[1 + (i - 1)] == ToolResult(results[1..][i - 1].toolCallID, results[1..][i - 1].content);
      } else {
        assert last.content[..1] == Blocks(results[0]);
        assert last.content[0] == last.content[..1][0];
      }
    }
  }

  // A group of the conversation adds one turn, or an assistant turn and its results.
  lemma GroupTranslates(s: State, m: Message, results: seq<Message>)
    requires WirePaired(Closed(s)) && m.role != Tool && (m.toolCalls != [] ==> m.role == Assistant)
    requires Answers(m.toolCalls, results)
    ensures WirePaired(Closed(Run(s, [m] + results)))
  {
    assert ([m] + results)[1..] == results;
    var t := Step(s, m);
    assert Run(s, [m] + results) == Run(t, results);
    if m.role != System {
      BlocksOfMessage(m);
      var turn := t.current.value;
      if results == [] {
        PlainTurn(turn);
        WirePairedAppend(Closed(s), [turn]);
      } else {
        var last := ResultsTurn(t, results);
        PairOfTurns(turn, last);
        WirePairedAppend(Closed(s), [turn, last]);
        assert Closed(t) + [last] == Closed(s) + [turn, last];
      }
    }
  }

  lemma {:induction false} PairedTranslates(s: State, msgs: seq<Message>)
    requires Paired(msgs) && WirePaired(Closed(s))
    ensures WirePaired(Closed(Run(s, msgs)))
    decreases |msgs|
  {
    if msgs != [] {
      var n := |msgs[0].toolCalls|;
      var group, more := msgs[..n + 1], msgs[n + 1..];
      assert group == [msgs[0]] + msgs[1..n + 1];
      GroupTranslates(s, msgs[0], msgs[1..n + 1]);
      assert msgs == group + more;
      RunAppend(s, group, more);
      PairedTranslates(Run(s, group), more);
    }
  }

  // A paired conversation becomes paired turns.
  lemma RequestIsPaired(msgs: seq<Message>)
    requires Paired(msgs)
    ensures WirePaired(Translate(msgs))
  {
    PairedTranslates(State([], None), msgs);
  }

  // ---------- nothing is lost ----------

  lemma {:induction false} TurnBlocksAppend(a: seq<Turn>, b: seq<Turn>)
    ensures TurnBlocks(a + b) == TurnBlocks(a) + TurnBlocks(b)
  {
    if a == [] {
      assert a + b == b;
    } else {
      assert (a + b)[0] == a[0] && (a + b)[1..] == a[1..] + b;
      TurnBlocksAppend(a[1..], b);
    }
  }

  lemma StepBlocks(s: State, m: Message)
    ensures TurnBlocks(Closed(Step(s, m))) == TurnBlocks(Closed(s)) + Blocks(m)
  {
    var t := Step(s, m);
    if m.role != System {
      var c := t.current.value;
      TurnBlocksAppend(t.done, [c]);
      assert TurnBlocks([c]) == c.content + TurnBlocks([]);
      if m.role == Tool && s.current.Some? && s.current.value.side == UserSide {
        var d := s.current.value;
        TurnBlocksAppend(s.done, [d]);
        assert TurnBlocks([d]) == d.content + TurnBlocks([]);
        assert TurnBlocks(s.done) + (d.content + Blocks(m)) == TurnBlocks(s.done) + d.content + Blocks(m);
      } else {
        assert t.done == Closed(s) && c.content == Blocks(m);
      }
    }
  }

  // Coalescing keeps every block of every message, in order, whatever the conversation.
  lemma {:induction false} RunBlocks(s: State, msgs: seq<Message>)
    ensures TurnBlocks(Closed(Run(s, msgs))) == TurnBlocks(Closed(s)) + AllBlocks(msgs)
    decreases |msgs|
  {
    if msgs != [] {
      var next := Step(s, msgs[0]);
      StepBlocks(s, msgs[0]);
      RunBlocks(next, msgs[1..]);
      assert Run(s, msgs) == Run(next, msgs[1..]);
      Regroup(TurnBlocks(Closed(s)), Blocks(msgs[0]), AllBlocks(msgs[1..]));
    }
  }

  lemma RequestKeepsBlocks(msgs: seq<Message>)
    ensures TurnBlocks(Translate(msgs)) == AllBlocks(msgs)
  {
    RunBlocks(State([], None), msgs);
    assert [] + AllBlocks(msgs) == AllBlocks(msgs);
  }
}
