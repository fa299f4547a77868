/** Cutting a document into chunks (internal/rag/chunker.go). Strings are sequences of
    runes; finding the sections and hashing are the caller's. */
module Chunker {
  import opened Prelude
  import Search

  datatype Options = Options(maxChars: int, overlapChars: int)

  datatype Section = Section(heading: string, body: string)

  type Chunk = Search.Chunk

  const DEFAULT := Options(3000, 300)
  const SEPARATOR := "\n\n"

  function Effective(opts: Options): Options {
    if opts.maxChars <= 0 then DEFAULT else opts
  }

  // ---------- paragraphs ----------

  ghost predicate BlankLine(text: string, j: nat)
    requires j + 2 <= |text|
  {
    text[j] == '\n' && text[j + 1] == '\n'
  }

  // The first place at or after from where the separator stands.
  function Find(text: string, from: nat): (i: nat)
    requires from <= |text|
    ensures from <= i <= |text|
    ensures i < |text| ==> i + 2 <= |text| && text[i..i + 2] == SEPARATOR
    decreases |text| - from
  {
    if from + 2 > |text| then |text|
    else if text[from..from + 2] == SEPARATOR then from
    else Find(text, from + 1)
  }

  lemma {:induction false} FindsFirst(text: string, from: nat, j: nat)
    requires from <= j && j + 2 <= |text| && j < Find(text, from)
    ensures !BlankLine(text, j)
    decreases |text| - from
  {
    if from < j {
      FindsFirst(text, from + 1, j);
    }
  }

  // strings.Split at the separator.
  function Paragraphs(text: string): (r: seq<string>)
    ensures r != []
    decreases |text|
  {
    var i := Find(text, 0);
    if i == |text| then [text] else [text[..i]] + Paragraphs(text[i + 2..])
  }

  // Each paragraph with a separator behind it.
  function Spread(paragraphs: seq<string>): string {
    if paragraphs == [] then "" else Spread(paragraphs[..|paragraphs| - 1]) + paragraphs[|paragraphs| - 1] + SEPARATOR
  }

  lemma {:induction false} SpreadAppend(a: seq<string>, b: seq<string>)
    ensures Spread(a + b) == Spread(a) + Spread(b)
    decreases |b|
  {
    if b == [] {
      assert a + b == a;
    } else {
      var n := |b| - 1;
      assert (a + b)[..|a + b| - 1] == a + b[..n];
      SpreadAppend(a, b[..n]);
    }
  }

  lemma SpreadOne(p: string)
    ensures Spread([p]) == p + SEPARATOR
  {
    assert [p][..0] == [];
    assert "" + p == p;
  }

  // Splitting loses nothing.
  lemma {:induction false} ParagraphsSpread(text: string)
    ensures Spread(Paragraphs(text)) == text + SEPARATOR
    decreases |text|
  {
    var i := Find(text, 0);
    if i == |text| {
      SpreadOne(text);
    } else {
      var rest := text[i + 2..];
      ParagraphsSpread(rest);
      SpreadOne(text[..i]);
      SpreadAppend([text[..i]], Paragraphs(rest));
      assert text == text[..i] + text[i..i + 2] + rest;
    }
  }

  ghost predicate NoBlankLine(p: string) {
    forall j :: 0 <= j <= |p| - 2 ==> !BlankLine(p, j)
  }

  // No blank line stands in a paragraph, nor begins at the end of one but the last.
  ghost predicate Apart(paragraphs: seq<string>) {
    && (forall i :: 0 <= i < |paragraphs| ==> NoBlankLine(paragraphs[i]))
    && forall i :: 0 <= i < |paragraphs| - 1 && paragraphs[i] != "" ==> paragraphs[i][|paragraphs[i]| - 1] != '\n'
  }

  lemma FrontApart(text: string, i: nat)
    requires i <= |text| && forall j :: 0 <= j < i && j <= |text| - 2 ==> !BlankLine(text, j)
    ensures NoBlankLine(text[..i])
    ensures 0 < i && i + 2 <= |text| && BlankLine(text, i) ==> text[i - 1] != '\n'
  {
    var front := text[..i];
    forall j | 0 <= j <= |front| - 2
      ensures !BlankLine(front, j)
    {
      assert !BlankLine(text, j);
    }
    if 0 < i && i + 2 <= |text| {
      assert !BlankLine(text, i - 1);
    }
  }

  lemma SeparatorAt(text: string, i: nat)
    requires i + 2 <= |text| && text[i..i + 2] == SEPARATOR
    ensures BlankLine(text, i)
  {
    var two := text[i..i + 2];
    assert text[i] == two[0] && text[i + 1] == two[1];
  }

  lemma FirstApart(text: string)
    ensures var i := Find(text, 0);
            NoBlankLine(text[..i]) && (0 < i < |text| ==> text[i - 1] != '\n')
  {
    var i := Find(text, 0);
    forall j | 0 <= j < i && j <= |text| - 2
      ensures !BlankLine(text, j)
    {
      FindsFirst(text, 0, j);
    }
    if i < |text| {
      SeparatorAt(text, i);
    }
    FrontApart(text, i);
  }

  lemma {:induction false} ParagraphsApart(text: string)
    ensures Apart(Paragraphs(text))
    decreases |text|
  {
    var i := Find(text, 0);
    FirstApart(text);
    if i == |text| {
      assert text[..i] == text;
    } else {
      ParagraphsApart(text[i + 2..]);
    }
  }

  // ---------- pieces in the text ----------

  ghost predicate Newlines(s: string) {
    forall i :: 0 <= i < |s| ==> s[i] == '\n'
  }

  ghost predicate AllNewlines(gaps: seq<string>) {
    forall i :: 0 <= i < |gaps| ==> Newlines(gaps[i])
  }

  // gap, piece, gap, piece, ..., gap
  function Woven(gaps: seq<string>, pieces: seq<string>): string
    requires |gaps| == |pieces| + 1
  {
    if pieces == [] then gaps[0]
    else
      var n := |pieces| - 1;
      Woven(gaps[..n + 1], pieces[..n]) + pieces[n] + gaps[n + 1]
  }

  // The last gap, longer or shorter.
  lemma WovenLast(gaps: seq<string>, pieces: seq<string>, gap: string) returns (before: string)
    requires |gaps| == |pieces| + 1
    ensures Woven(gaps, pieces) == before + gaps[|pieces|]
    ensures Woven(gaps[..|pieces|] + [gap], pieces) == before + gap
  {
    if pieces == [] {
      before := "";
    } else {
      var n := |pieces| - 1;
      before := Woven(gaps[..n + 1], pieces[..n]) + pieces[n];
      var other := gaps[..|pieces|] + [gap];
      assert other[..n + 1] == gaps[..n + 1] && other[n + 1] == gap;
    }
  }

  ghost predicate Fitting(pieces: seq<string>, max: nat) {
    forall i :: 0 <= i < |pieces| ==> 0 < |pieces[i]| <= max
  }

  // The pieces, in order, with only newlines around and between them, are the text.
  ghost predicate Lies(text: string, gaps: seq<string>, pieces: seq<string>) {
    |gaps| == |pieces| + 1 && AllNewlines(gaps) && Woven(gaps, pieces) == text
  }

  // Fewer newlines behind.
  lemma LiesShorter(text: string, gaps: seq<string>, pieces: seq<string>, tail: string) returns (gaps': seq<string>)
    requires Lies(text + tail, gaps, pieces) && |gaps[|pieces|]| >= |tail|
    ensures Lies(text, gaps', pieces)
  {
    var last := gaps[|pieces|];
    var kept := last[..|last| - |tail|];
    gaps' := gaps[..|pieces|] + [kept];
    var before := WovenLast(gaps, pieces, kept);
    assert text == (text + tail)[..|text|];
    assert before + kept == (before + last)[..|before| + |kept|];
  }

  // ---------- where pieces come from ----------

  // A piece is some paragraphs in a row, whole, or a stretch of one that is too long.
  datatype Origin = Whole(from: nat, to: nat) | Part(at: nat, start: nat)

  // Paragraphs are joined until the next one does not fit.
  ghost predicate Stems(ps: seq<string>, max: nat, piece: string, o: Origin) {
    match o
    case Whole(from, to) =>
      && from < to <= |ps| && ps[from] != "" && piece == Join(ps[from..to], "\n\n")
      && |piece| <= max && (to < |ps| ==> |piece| + 2 + |ps[to]| > max)
    case Part(at, start) =>
      && at < |ps| && |ps[at]| > max && start < |ps[at]|
      && piece == ps[at][start..if start + max < |ps[at]| then start + max else |ps[at]|]
  }

  ghost predicate AllEmpty(ps: seq<string>, a: nat, b: nat) {
    a <= b <= |ps| && forall j :: a <= j < b ==> ps[j] == ""
  }

  // The first k pieces account for the first i paragraphs; only empty ones are passed over.
  ghost predicate Accounts(ps: seq<string>, max: nat, origins: seq<Origin>, k: nat, i: nat)
    requires k <= |origins|
  {
    if k == 0 then AllEmpty(ps, 0, i)
    else
      match origins[k - 1]
      case Whole(_, to) => AllEmpty(ps, to, i)
      case Part(at, start) => at < |ps| && start + max >= |ps[at]| && AllEmpty(ps, at + 1, i)
  }

  // Piece k goes on where the pieces before it end.
  ghost predicate GoesOn(ps: seq<string>, max: nat, origins: seq<Origin>, k: nat)
    requires k < |origins|
  {
    match origins[k]
    case Whole(from, _) => Accounts(ps, max, origins, k, from)
    case Part(at, start) =>
      if start == 0 then Accounts(ps, max, origins, k, at)
      else k > 0 && start >= max && origins[k - 1] == Part(at, start - max)
  }

  ghost predicate Built(ps: seq<string>, max: nat, pieces: seq<string>, origins: seq<Origin>) {
    && |pieces| == |origins|
    && forall k :: 0 <= k < |origins| ==> Stems(ps, max, pieces[k], origins[k]) && GoesOn(ps, max, origins, k)
  }

  lemma BuiltMore(ps: seq<string>, max: nat, pieces: seq<string>, origins: seq<Origin>, piece: string, o: Origin)
    requires Built(ps, max, pieces, origins) && Stems(ps, max, piece, o)
    requires GoesOn(ps, max, origins + [o], |origins|)
    ensures Built(ps, max, pieces + [piece], origins + [o])
  {
    var more := origins + [o];
    forall k | 0 <= k < |origins|
      ensures GoesOn(ps, max, more, k)
    {
      assert GoesOn(ps, max, origins, k) && more[k] == origins[k] && (k > 0 ==> more[k - 1] == origins[k - 1]);
    }
  }

  // The paragraphs since the last piece make the piece under construction.
  ghost predicate Building(ps: seq<string>, max: nat, origins: seq<Origin>, current: string, from: nat, i: nat)
  {
    && i <= |ps|
    && if current == "" then Accounts(ps, max, origins, |origins|, i)
       else
         && from < i && ps[from] != "" && current == Join(ps[from..i], "\n\n")
         && Accounts(ps, max, origins, |origins|, from)
  }

  // Paragraph i joins the piece under construction.
  lemma BuildingGrows(ps: seq<string>, max: nat, origins: seq<Origin>, current: string, from: nat, i: nat)
    requires i < |ps| && Building(ps, max, origins, current, from, i)
    ensures Building(ps, max, origins, if current == "" then ps[i] else current + SEPARATOR + ps[i],
                     if current == "" then i else from, i + 1)
  {
    if current == "" {
      assert ps[i..i + 1] == [ps[i]];
      JoinMeans([], ps[i], SEPARATOR);
    } else {
      assert ps[from..i + 1] == ps[from..i] + [ps[i]];
      JoinMeans(ps[from..i], ps[i], SEPARATOR);
    }
  }

  // The piece under construction is put out, as paragraph i does not fit or there is none.
  lemma BuildingEnds(ps: seq<string>, max: nat, out: seq<string>, origins: seq<Origin>, current: string,
                     from: nat, i: nat)
    requires Built(ps, max, out, origins) && Building(ps, max, origins, current, from, i)
    requires current != "" && |current| <= max
    requires i < |ps| ==> |current| + 2 + |ps[i]| > max
    ensures Built(ps, max, out + [current], origins + [Whole(from, i)])
    ensures Accounts(ps, max, origins + [Whole(from, i)], |origins| + 1, i)
  {
    var more := origins + [Whole(from, i)];
    assert |origins| > 0 ==> more[|origins| - 1] == origins[|origins| - 1];
    BuiltMore(ps, max, out, origins, current, Whole(from, i));
  }

  // ---------- splitBySize ----------

  // Stretches of max runes from start on, and a shorter last.
  function Stretches(p: string, max: nat, start: nat): seq<string>
    requires max > 0 && start <= |p|
    decreases |p| - start
  {
    if start == |p| then []
    else
      var end := if start + max < |p| then start + max else |p|;
      [p[start..end]] + Stretches(p, max, end)
  }

  // Appends a paragraph that is too long, in pieces.
  method HardSplit(p: string, max: nat, before: seq<string>) returns (out: seq<string>)
    requires max > 0
    ensures out == before + Stretches(p, max, 0)
  {
    out := before;
    var start := 0;
    while start < |p|
      invariant start <= |p|
      invariant before + Stretches(p, max, 0) == out + Stretches(p, max, start)
    {
      var end := start + max;
      if end > |p| {
        end := |p|;
      }
      Regroup(out, [p[start..end]], Stretches(p, max, end));
      out := out + [p[start..end]];
      start := end;
    }
  }

  lemma {:induction false} StretchesLie(text: string, gaps: seq<string>, out: seq<string>, p: string, max: nat,
                                        start: nat)
    returns (gaps': seq<string>)
    requires max > 0 && start <= |p| && Lies(text + p[..start], gaps, out) && Fitting(out, max)
    ensures Lies(text + p, gaps', out + Stretches(p, max, start)) && Fitting(out + Stretches(p, max, start), max)
    decreases |p| - start
  {
    if start == |p| {
      assert p[..start] == p;
      assert out + [] == out;
      gaps' := gaps;
    } else {
      var end := if start + max < |p| then start + max else |p|;
      LiesOn(text + p[..start], gaps, out, p[start..end]);
      assert text + p[..start] + p[start..end] == text + p[..end];
      gaps' := StretchesLie(text, gaps + [""], out + [p[start..end]], p, max, end);
      Regroup(out, [p[start..end]], Stretches(p, max, end));
    }
  }

  lemma {:induction false} StretchesBuilt(ps: seq<string>, max: nat, out: seq<string>, origins: seq<Origin>, i: nat,
                                          start: nat)
    returns (origins': seq<Origin>)
    requires max > 0 && Built(ps, max, out, origins) && Cutting(ps, max, origins, i, start)
    requires max < |ps[i]| && start <= |ps[i]|
    ensures Built(ps, max, out + Stretches(ps[i], max, start), origins')
    ensures Accounts(ps, max, origins', |origins'|, i + 1)
    decreases |ps[i]| - start
  {
    if start == |ps[i]| {
      assert out + [] == out;
      origins' := origins;
    } else {
      var end := if start + max < |ps[i]| then start + max else |ps[i]|;
      var piece := ps[i][start..end];
      CuttingMore(ps, max, out, origins, i, start, end);
      origins' := StretchesBuilt(ps, max, out + [piece], origins + [Part(i, start)], i, end);
      Regroup(out, [piece], Stretches(ps[i], max, end));
    }
  }

  lemma LiesOn(text: string, gaps: seq<string>, pieces: seq<string>, piece: string)
    requires Lies(text, gaps, pieces)
    ensures Lies(text + piece, gaps + [""], pieces + [piece])
  {
    assert (pieces + [piece])[..|pieces|] == pieces && (gaps + [""])[..|gaps|] == gaps;
    assert text + piece + "" == text + piece;
  }

  // Paragraph i is cut up to start.
  ghost predicate Cutting(ps: seq<string>, max: nat, origins: seq<Origin>, i: nat, start: nat) {
    && i < |ps|
    && if start == 0 then Accounts(ps, max, origins, |origins|, i)
       else
         && origins != [] && origins[|origins| - 1].Part? && origins[|origins| - 1].at == i
         && var last := origins[|origins| - 1].start + max;
            if last < |ps[i]| then start == last else start == |ps[i]|
  }

  lemma CuttingMore(ps: seq<string>, max: nat, out: seq<string>, origins: seq<Origin>, i: nat, start: nat, end: nat)
    requires max > 0 && Built(ps, max, out, origins) && Cutting(ps, max, origins, i, start)
    requires start < |ps[i]| && max < |ps[i]| && end == if start + max < |ps[i]| then start + max else |ps[i]|
    ensures Built(ps, max, out + [ps[i][start..end]], origins + [Part(i, start)])
    ensures Cutting(ps, max, origins + [Part(i, start)], i, end)
  {
    var more := origins + [Part(i, start)];
    assert |origins| > 0 ==> more[|origins| - 1] == origins[|origins| - 1];
    BuiltMore(ps, max, out, origins, ps[i][start..end], Part(i, start));
  }

  // The text read so far: what lies in the pieces, then the piece under construction.
  ghost predicate Reading(text: string, done: string, gaps: seq<string>, out: seq<string>, current: string, max: nat) {
    && Lies(done, gaps, out) && Fitting(out, max) && |current| <= max
    && text == if current == "" then done else done + current + SEPARATOR
  }

  // The paragraph joins the current piece.
  lemma Grows(text: string, done: string, gaps: seq<string>, out: seq<string>, current: string, max: nat, p: string)
    returns (done': string, gaps': seq<string>)
    requires Reading(text, done, gaps, out, current, max)
    requires |current| + |p| + (if current == "" then 0 else 2) <= max
    ensures var current' := if current == "" then p else current + SEPARATOR + p;
            && Reading(text + p + SEPARATOR, done', gaps', out, current', max)
            && (current' == "" ==> |gaps'[|out|]| >= 2)
  {
    done', gaps' := done, gaps;
    if current != "" {
      assert done + (current + SEPARATOR + p) + SEPARATOR == text + p + SEPARATOR;
    } else if p == "" {
      assert text + p + SEPARATOR == done + SEPARATOR;
      done' := done + SEPARATOR;
      gaps' := LiesFurther(done, gaps, out);
    }
  }

  lemma LiesFurther(done: string, gaps: seq<string>, out: seq<string>) returns (gaps': seq<string>)
    requires Lies(done, gaps, out)
    ensures Lies(done + SEPARATOR, gaps', out) && |gaps'[|out|]| >= 2
  {
    var last := gaps[|out|];
    gaps' := gaps[..|out|] + [last + SEPARATOR];
    var before := WovenLast(gaps, out, last + SEPARATOR);
  }

  // A body within the limit stays whole; a longer one is cut into non-empty pieces
  // within the limit that lie in the body, in order, with only newlines in between, and
  // that join whole paragraphs as long as these fit.
  method SplitBySize(body: string, max: nat)
    returns (out: seq<string>, ghost gaps: seq<string>, ghost origins: seq<Origin>)
    requires max > 0
    ensures Lies(body, gaps, out)
    ensures |body| <= max ==> out == [body]
    ensures body != "" ==> Fitting(out, max)
    ensures |body| > max ==> JoinedFrom(Paragraphs(body), max, out, origins)
  {
    if |body| <= max {
      out, gaps, origins := [body], ["", ""], [];
      return;
    }
    var paragraphs := Paragraphs(body);
    var current := "";
    out, gaps, origins := [], [""], [];
    ghost var done, from: nat := "", 0;
    for i := 0 to |paragraphs|
      invariant Reading(Spread(paragraphs[..i]), done, gaps, out, current, max)
      invariant current == "" && i > 0 ==> |gaps[|out|]| >= 2
      invariant Built(paragraphs, max, out, origins) && Building(paragraphs, max, origins, current, from, i)
    {
      var p := paragraphs[i];
      SpreadNext(paragraphs, i);
      ghost var text := Spread(paragraphs[..i]);
      if |current| + |p| + (if |current| > 0 then 2 else 0) <= max {
        done, gaps := Grows(text, done, gaps, out, current, max, p);
        BuildingGrows(paragraphs, max, origins, current, from, i);
        from := if |current| > 0 then from else i;
        current := if |current| > 0 then current + SEPARATOR + p else p;
      } else {
        out, current, done, gaps, origins :=
          Overflows(text, done, gaps, out, current, max, p, paragraphs, origins, from, i);
        from := i;
      }
    }
    assert paragraphs[..|paragraphs|] == paragraphs;
    ParagraphsSpread(body);
    if |current| > 0 {
      LastPiece(body, done, gaps, out, current, max);
      BuildingEnds(paragraphs, max, out, origins, current, from, |paragraphs|);
      out, gaps, origins := out + [current], gaps + [""], origins + [Whole(from, |paragraphs|)];
    } else {
      gaps := LiesShorter(body, gaps, out, SEPARATOR);
    }
  }

  lemma LastPiece(body: string, done: string, gaps: seq<string>, out: seq<string>, current: string, max: nat)
    requires Reading(body + SEPARATOR, done, gaps, out, current, max) && current != ""
    ensures Lies(body, gaps + [""], out + [current]) && Fitting(out + [current], max)
  {
    SameFront(done + current, body);
    assert (out + [current])[..|out|] == out && (gaps + [""])[..|gaps|] == gaps;
  }

  lemma SameFront(a: string, b: string)
    requires a + SEPARATOR == b + SEPARATOR
    ensures a + "" == b
  {
    assert a == (a + SEPARATOR)[..|a|] && b == (b + SEPARATOR)[..|b|];
  }

  lemma SpreadNext(paragraphs: seq<string>, i: nat)
    requires i < |paragraphs|
    ensures Spread(paragraphs[..i + 1]) == Spread(paragraphs[..i]) + paragraphs[i] + SEPARATOR
  {
    assert paragraphs[..i + 1][..i] == paragraphs[..i];
  }

  lemma PutOut(text: string, done: string, gaps: seq<string>, out: seq<string>, current: string, max: nat)
    requires Reading(text, done, gaps, out, current, max) && current != ""
    ensures Lies(text, gaps + [SEPARATOR], out + [current]) && Fitting(out + [current], max)
  {
  }

  lemma LongParagraph(text: string, gaps: seq<string>, out: seq<string>, ps: seq<string>, max: nat,
                      origins: seq<Origin>, i: nat)
    returns (gaps': seq<string>, origins': seq<Origin>)
    requires i < |ps| && 0 < max < |ps[i]| && Lies(text, gaps, out) && Fitting(out, max)
    requires Built(ps, max, out, origins) && Accounts(ps, max, origins, |origins|, i)
    ensures var out' := out + Stretches(ps[i], max, 0);
            && Lies(text + ps[i] + SEPARATOR, gaps', out') && Fitting(out', max) && |gaps'[|out'|]| >= 2
            && Built(ps, max, out', origins') && Accounts(ps, max, origins', |origins'|, i + 1)
  {
    assert text + ps[i][..0] == text;
    gaps' := StretchesLie(text, gaps, out, ps[i], max, 0);
    gaps' := LiesFurther(text + ps[i], gaps', out + Stretches(ps[i], max, 0));
    origins' := StretchesBuilt(ps, max, out, origins, i, 0);
  }

  // Paragraph i does not fit: the current piece is put out, and the paragraph is cut or
  // becomes the current piece.
  method Overflows(ghost text: string, ghost done: string, ghost gaps: seq<string>, before: seq<string>,
                   current: string, max: nat, p: string,
                   ghost ps: seq<string>, ghost origins: seq<Origin>, ghost from: nat, ghost i: nat)
    returns (out: seq<string>, current': string, ghost done': string, ghost gaps': seq<string>,
             ghost origins': seq<Origin>)
    requires max > 0 && Reading(text, done, gaps, before, current, max)
    requires |current| + |p| + (if |current| > 0 then 2 else 0) > max
    requires i < |ps| && p == ps[i]
    requires Built(ps, max, before, origins) && Building(ps, max, origins, current, from, i)
    ensures Reading(text + p + SEPARATOR, done', gaps', out, current', max)
    ensures current' == "" ==> |gaps'[|out|]| >= 2
    ensures Built(ps, max, out, origins') && Building(ps, max, origins', current', i, i + 1)
  {
    out, current', done', gaps', origins' := before, "", done, gaps, origins;
    if |current| > 0 {
      BuildingEnds(ps, max, before, origins, current, from, i);
      PutOut(text, done, gaps, before, current, max);
      out, done', gaps', origins' := before + [current], text, gaps + [SEPARATOR], origins + [Whole(from, i)];
    }
    if |p| > max {
      gaps', origins' := LongParagraph(text, gaps', out, ps, max, origins', i);
      out := HardSplit(p, max, out);
      done' := text + p + SEPARATOR;
    } else {
      current' := p;
      BuildingGrows(ps, max, origins', "", i, i);
      done', gaps' := Grows(text, text, gaps', out, "", max, p);
    }
  }

  // ---------- overlap ----------

  function Prefix(text: string, n: nat): string {
    if |text| > n then text[..n] else text
  }

  // What a chunk becomes, given the next one.
  function Extended(c: Chunk, next: Chunk, overlap: nat): Chunk {
    c.(text := c.text + (SEPARATOR + Prefix(next.text, overlap)))
  }

  // All chunks but the last, extended from the next one's text as it was.
  function Overlapped(chunks: seq<Chunk>, overlap: int): (r: seq<Chunk>)
    ensures |r| == |chunks|
  {
    if overlap <= 0 then chunks
    else
      seq(|chunks|, i requires 0 <= i < |chunks| =>
        if i + 1 < |chunks| then Extended(chunks[i], chunks[i + 1], overlap) else chunks[i])
  }

  // With an overlap every chunk but the last gets a blank line and the next text, as far
  // as the overlap goes.
  lemma OverlapMeans(chunks: seq<Chunk>, overlap: int, i: nat)
    requires i < |chunks|
    ensures var c := Overlapped(chunks, overlap)[i];
            && c == chunks[i].(text := c.text)
            && (overlap <= 0 || i + 1 == |chunks| ==> c == chunks[i])
            && (overlap > 0 && i + 1 < |chunks| ==>
                 var next := chunks[i + 1].text;
                 c.text == chunks[i].text + ("\n\n" + next[..if overlap < |next| then overlap else |next|]))
  {
  }

  // The first n chunks are extended, the others as they were.
  ghost predicate OverlapTo(before: seq<Chunk>, after: seq<Chunk>, n: int, overlap: nat) {
    && |after| == |before| && 0 <= n <= |before| - 1
    && (forall j :: 0 <= j < n ==> after[j] == Extended(before[j], before[j + 1], overlap))
    && forall j :: n <= j < |before| ==> after[j] == before[j]
  }

  // In place, front to back.
  method ApplyOverlap(chunks: array<Chunk>, overlap: int)
    modifies chunks
    ensures chunks[..] == Overlapped(old(chunks[..]), overlap)
  {
    if overlap <= 0 || chunks.Length < 2 {
      return;
    }
    var i := 0;
    while i < chunks.Length - 1
      invariant OverlapTo(old(chunks[..]), chunks[..], i, overlap)
    {
      ghost var extended := chunks[..][i := Extended(chunks[i], chunks[i + 1], overlap)];
      var next := chunks[i + 1].text;
      if |next| > overlap {
        next := next[..overlap];
      }
      chunks[i] := chunks[i].(text := chunks[i].text + (SEPARATOR + next));
      assert chunks[..] == extended;
      i := i + 1;
    }
  }

  // ---------- the whole document ----------

  function PieceChunk(source: string, sec: Section, ordinal: nat, text: string): Chunk {
    Search.Chunk("", source, sec.heading, ordinal, text, [])
  }

  // The chunks come from these pieces, numbered within their section.
  ghost predicate FromPieces(source: string, sec: Section, pieces: seq<string>, chunks: seq<Chunk>) {
    |chunks| == |pieces| && forall i :: 0 <= i < |pieces| ==> chunks[i] == PieceChunk(source, sec, i, pieces[i])
  }

  // Section after section, each cut into pieces that lie in its body.
  ghost predicate FromSections(source: string, sections: seq<Section>, cuts: seq<seq<string>>, max: nat,
                               chunks: seq<Chunk>)
  {
    Cuts(sections, cuts, max) && chunks == Numbered(source, sections, cuts)
  }

  ghost predicate Cuts(sections: seq<Section>, cuts: seq<seq<string>>, max: nat) {
    |cuts| == |sections| && forall i :: 0 <= i < |sections| ==> PiecesOf(sections[i], cuts[i], max)
  }

  lemma CutsMore(sections: seq<Section>, k: nat, cuts: seq<seq<string>>, max: nat, pieces: seq<string>)
    requires k < |sections| && Cuts(sections[..k], cuts, max) && PiecesOf(sections[k], pieces, max)
    ensures Cuts(sections[..k + 1], cuts + [pieces], max)
  {
    forall i | 0 <= i < k
      ensures PiecesOf(sections[i], cuts[i], max)
    {
      assert PiecesOf(sections[..k][i], cuts[i], max);
    }
  }

  lemma CutsFit(sections: seq<Section>, cuts: seq<seq<string>>, max: nat, i: nat)
    requires Cuts(sections, cuts, max) && i < |sections| && sections[i].body != ""
    ensures Fitting(cuts[i], max)
  {
    assert PiecesOf(sections[i], cuts[i], max);
  }

  ghost predicate PiecesOf(sec: Section, pieces: seq<string>, max: nat) {
    && (exists gaps :: Lies(sec.body, gaps, pieces))
    && (sec.body != "" ==> Fitting(pieces, max))
    && (|sec.body| <= max ==> pieces == [sec.body])
    && (|sec.body| > max ==> exists origins :: JoinedFrom(Paragraphs(sec.body), max, pieces, origins))
  }

  ghost predicate JoinedFrom(ps: seq<string>, max: nat, pieces: seq<string>, origins: seq<Origin>) {
    Built(ps, max, pieces, origins) && Accounts(ps, max, origins, |origins|, |ps|)
  }

  function ChunksOf(source: string, sec: Section, pieces: seq<string>): (r: seq<Chunk>)
    ensures FromPieces(source, sec, pieces, r)
  {
    if pieces == [] then []
    else ChunksOf(source, sec, pieces[..|pieces| - 1]) + [PieceChunk(source, sec, |pieces| - 1, pieces[|pieces| - 1])]
  }

  function Numbered(source: string, sections: seq<Section>, cuts: seq<seq<string>>): seq<Chunk>
    requires |cuts| == |sections|
  {
    if sections == [] then []
    else
      var n := |sections| - 1;
      Numbered(source, sections[..n], cuts[..n]) + ChunksOf(source, sections[n], cuts[n])
  }

  // Section by section, every piece with its source, heading and number.
  lemma NumberedMeans(source: string, sections: seq<Section>, cuts: seq<seq<string>>, sec: Section, pieces: seq<string>)
    requires |cuts| == |sections|
    ensures Numbered(source, [], []) == []
    ensures var before, chunks := Numbered(source, sections, cuts), Numbered(source, sections + [sec], cuts + [pieces]);
            && |chunks| == |before| + |pieces| && chunks[..|before|] == before
            && forall i :: 0 <= i < |pieces| ==>
                 chunks[|before| + i] == Search.Chunk("", source, sec.heading, i, pieces[i], [])
  {
    assert (sections + [sec])[..|sections|] == sections && (cuts + [pieces])[..|cuts|] == cuts;
  }

  type Hash = (string, string, int, string) -> string

  // The ordinal enters the hash as one byte.
  function WithID(c: Chunk, hash: Hash): Chunk {
    c.(id := hash(c.source, c.heading, c.ordinal % 256, c.text))
  }

  method NumberPieces(source: string, sec: Section, pieces: seq<string>) returns (numbered: seq<Chunk>)
    ensures numbered == ChunksOf(source, sec, pieces)
  {
    numbered := [];
    for i := 0 to |pieces|
      invariant numbered == ChunksOf(source, sec, pieces[..i])
    {
      assert pieces[..i + 1][..i] == pieces[..i];
      numbered := numbered + [PieceChunk(source, sec, i, pieces[i])];
    }
    assert pieces[..|pieces|] == pieces;
  }

  lemma SectionsMore(source: string, sections: seq<Section>, k: nat, cuts: seq<seq<string>>, max: nat,
                     chunks: seq<Chunk>, pieces: seq<string>)
    requires k < |sections| && FromSections(source, sections[..k], cuts, max, chunks) &&
             PiecesOf(sections[k], pieces, max)
    ensures FromSections(source, sections[..k + 1], cuts + [pieces], max,
                         chunks + ChunksOf(source, sections[k], pieces))
  {
    assert sections[..k + 1][..k] == sections[..k] && (cuts + [pieces])[..k] == cuts;
    CutsMore(sections, k, cuts, max, pieces);
  }

  method CutSections(source: string, sections: seq<Section>, max: nat)
    returns (all: seq<Chunk>)
    requires max > 0
    ensures exists cuts :: FromSections(source, sections, cuts, max, all)
  {
    all := [];
    ghost var cuts: seq<seq<string>> := [];
    for k := 0 to |sections|
      invariant FromSections(source, sections[..k], cuts, max, all)
    {
      var pieces, gaps, origins := SplitBySize(sections[k].body, max);
      assert PiecesOf(sections[k], pieces, max);
      var numbered := NumberPieces(source, sections[k], pieces);
      SectionsMore(source, sections, k, cuts, max, all, pieces);
      all, cuts := all + numbered, cuts + [pieces];
    }
    assert sections[..|sections|] == sections;
  }

  method SetIDs(chunks: array<Chunk>, hash: Hash)
    modifies chunks
    ensures forall j :: 0 <= j < chunks.Length ==> chunks[j] == WithID(old(chunks[j]), hash)
  {
    for i := 0 to chunks.Length
      invariant forall j :: 0 <= j < i ==> chunks[j] == WithID(old(chunks[j]), hash)
      invariant forall j :: i <= j < chunks.Length ==> chunks[j] == old(chunks[j])
    {
      chunks[i] := WithID(chunks[i], hash);
    }
  }

  // Overlapped, each with the id of its final text.
  ghost predicate Finishes(out: seq<Chunk>, raw: seq<Chunk>, overlap: int, hash: Hash) {
    |out| == |raw| && forall i :: 0 <= i < |out| ==> out[i] == WithID(Overlapped(raw, overlap)[i], hash)
  }

  method SplitMarkdown(source: string, sections: seq<Section>, given: Options, hash: Hash)
    returns (out: seq<Chunk>)
    ensures given.maxChars > 0 ==>
              exists cuts, raw :: FromSections(source, sections, cuts, given.maxChars, raw) &&
                                  Finishes(out, raw, given.overlapChars, hash)
    ensures given.maxChars <= 0 ==>
              exists cuts, raw :: FromSections(source, sections, cuts, 3000, raw) && Finishes(out, raw, 300, hash)
    ensures forall c :: c in out ==> c.id == hash(c.source, c.heading, c.ordinal % 256, c.text)
  {
    var opts := Effective(given);
    var all := CutSections(source, sections, opts.maxChars);
    var chunks := new Chunk[|all|](i requires 0 <= i < |all| => all[i]);
    assert chunks[..] == all;
    ApplyOverlap(chunks, opts.overlapChars);
    SetIDs(chunks, hash);
    out := chunks[..];
    assert Finishes(out, all, opts.overlapChars, hash);
  }

  lemma {:induction false} NumberedFit(source: string, sections: seq<Section>, cuts: seq<seq<string>>, max: nat)
    requires |cuts| == |sections| && forall i :: 0 <= i < |cuts| ==> Fitting(cuts[i], max)
    ensures forall i :: 0 <= i < |Numbered(source, sections, cuts)| ==>
              0 < |Numbered(source, sections, cuts)[i].text| <= max
  {
    if sections != [] {
      var n := |sections| - 1;
      NumberedFit(source, sections[..n], cuts[..n], max);
    }
  }

  // With overlap no text is longer than the limit, a blank line and the overlap.
  lemma TextsFit(source: string, sections: seq<Section>, cuts: seq<seq<string>>, max: nat, raw: seq<Chunk>,
                 overlap: nat)
    requires FromSections(source, sections, cuts, max, raw)
    requires forall i :: 0 <= i < |sections| ==> sections[i].body != ""
    ensures forall i :: 0 <= i < |raw| ==> 0 < |Overlapped(raw, overlap)[i].text| <= max + 2 + overlap
  {
    forall i | 0 <= i < |cuts|
      ensures Fitting(cuts[i], max)
    {
      CutsFit(sections, cuts, max, i);
    }
    NumberedFit(source, sections, cuts, max);
  }
}
