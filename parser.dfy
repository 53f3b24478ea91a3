/**
 * The reply parser of `src/llm.rs` (`parse_llm_response`): a single forward
 * pass over the lines of the model's reply that separates an explanation,
 * an ordered list of (path, content) file sections and the remaining text.
 *
 * Each line is first classified by the first marker test it passes
 * (`Classify`, in the order the scan applies the tests); `Step` is one
 * iteration of the scan on a classified line and `Feed` the scan of a
 * stretch of them. `ParseResponse` is the loop itself, proved to compute
 * `Parse`; the lemmas below say what the scan does with each kind of section.
 */
module Parser {
  import opened Wrappers
  import opened Text

  const ThinkOpen := "<think>"
  const ThinkClose := "</think>"
  const ExplainStart := "=== EXPLAIN START ==="
  const ExplainEnd := "=== EXPLAIN END ==="
  const SectionPrefix := "=== "
  const OpenSuffix := " === START ==="
  const CloseSuffix := " === END ==="

  /** The one line the open test accepts whose path slice `[4..len - 14]` is out of order. */
  const EmptySliceLine := "=== === START ==="

  // The marker tests: the think and explain markers are recognised on the
  // trimmed line, the file markers on the line as received.
  predicate IsThinkOpen(line: string) { StartsWith(Trim(line), ThinkOpen) }
  predicate IsThinkClose(line: string) { StartsWith(Trim(line), ThinkClose) }
  predicate IsExplainStart(line: string) { Trim(line) == ExplainStart }
  predicate IsExplainEnd(line: string) { Trim(line) == ExplainEnd }
  predicate IsFileOpen(line: string) { StartsWith(line, SectionPrefix) && EndsWith(line, OpenSuffix) }
  predicate IsFileClose(line: string) { StartsWith(line, SectionPrefix) && EndsWith(line, CloseSuffix) }

  /** What a line is to the scan: the first test it passes, in the scan's order. */
  datatype Marker =
    | ThinkOpenMark | ThinkCloseMark | ExplainStartMark | ExplainEndMark
    | FileOpenMark | FileCloseMark | Content

  function Classify(line: string): Marker {
    if IsThinkOpen(line) then ThinkOpenMark
    else if IsThinkClose(line) then ThinkCloseMark
    else if IsExplainStart(line) then ExplainStartMark
    else if IsExplainEnd(line) then ExplainEndMark
    else if IsFileOpen(line) then FileOpenMark
    else if IsFileClose(line) then FileCloseMark
    else Content
  }

  /** A line that is neither a think marker nor an explain marker. */
  predicate IsExplainText(line: string) {
    var mark := Classify(line);
    mark == FileOpenMark || mark == FileCloseMark || mark == Content
  }

  /** A line that no test recognises: content wherever it appears. */
  predicate IsPlain(line: string) {
    Classify(line) == Content
  }

  datatype Token = Token(mark: Marker, line: string)

  function Tok(line: string): Token { Token(Classify(line), line) }

  /** Every line with its classification, in order. */
  function Tokenize(lines: seq<string>): (r: seq<Token>)
    ensures |r| == |lines|
    decreases |lines|
  {
    if lines == [] then [] else Tokenize(lines[..|lines| - 1]) + [Tok(lines[|lines| - 1])]
  }

  /** The lines a stretch of tokens was made from. */
  function LinesOf(toks: seq<Token>): (r: seq<string>)
    ensures |r| == |toks|
    decreases |toks|
  {
    if toks == [] then [] else LinesOf(toks[..|toks| - 1]) + [toks[|toks| - 1].line]
  }

  /** The scan's local variables: three flags, the open section and the three outputs. */
  datatype ScanState = ScanState(
    inThink: bool, inComment: bool, inFile: bool,
    currentPath: string, currentFile: seq<string>,
    files: seq<(string, string)>, comments: seq<string>, remaining: seq<string>)
  {
    /** Outside every think, explain and file section. */
    predicate Normal() { !inThink && !inComment && !inFile }
  }

  const Initial := ScanState(false, false, false, "", [], [], [], [])

  datatype ParseError =
    | UnexpectedEnd                  // a file section is still open at the end of the reply
    | SliceOutOfOrder(line: string)  // the path slice of this open line panics

  /** What a successful parse yields: explanation, file sections in order, trailing text. */
  datatype Reply = Reply(explanation: string, files: seq<(string, string)>, trailing: string)

  /** The entry a close line emits: the open section, unless its path is empty. */
  function Emitted(s: ScanState): seq<(string, string)> {
    if s.currentPath != "" then [(s.currentPath, JoinLines(s.currentFile))] else []
  }

  /**
   * One iteration of the scan. The think markers act in every state, the
   * explain markers outside think blocks, the file markers outside think
   * and explain blocks; the open-line slice fails on a line too short for it.
   */
  function Step(s: ScanState, tok: Token): Result<ScanState, ParseError> {
    var line := tok.line;
    if tok.mark == ThinkOpenMark then Ok(s.(inThink := true))
    else if tok.mark == ThinkCloseMark then Ok(s.(inThink := false))
    else if s.inThink then Ok(s)
    else if tok.mark == ExplainStartMark then Ok(s.(inComment := true))
    else if tok.mark == ExplainEndMark then Ok(s.(inComment := false))
    else if s.inComment then Ok(s.(comments := s.comments + [line]))
    else if tok.mark == FileOpenMark then
      if |line| < |SectionPrefix| + |OpenSuffix| then Err(SliceOutOfOrder(line))
      else Ok(s.(inFile := true, currentPath := line[|SectionPrefix|..|line| - |OpenSuffix|], currentFile := []))
    else if tok.mark == FileCloseMark then Ok(s.(inFile := false, files := s.files + Emitted(s)))
    else if s.inFile then Ok(s.(currentFile := s.currentFile + [line]))
    else Ok(s.(remaining := s.remaining + [line]))
  }

  /** The scan of `toks` from state `s`; the first failing step ends it. */
  function Feed(s: ScanState, toks: seq<Token>): Result<ScanState, ParseError>
    decreases |toks|
  {
    if toks == [] then Ok(s)
    else
      var before := Feed(s, toks[..|toks| - 1]);
      if before.Err? then before else Step(before.value, toks[|toks| - 1])
  }

  /** Continues a scan that has not failed. */
  function Then(r: Result<ScanState, ParseError>, toks: seq<Token>): Result<ScanState, ParseError> {
    if r.Err? then r else Feed(r.value, toks)
  }

  /** The outcome once every line is scanned: a file section left open is refused. */
  function Finish(r: Result<ScanState, ParseError>): Result<Reply, ParseError> {
    match r
    case Err(e) => Err(e)
    case Ok(s) =>
      if s.inFile then Err(UnexpectedEnd)
      else Ok(Reply(JoinLines(s.comments), s.files, JoinLines(s.remaining)))
  }

  /** The parse of a classified reply. */
  function Parse(toks: seq<Token>): Result<Reply, ParseError> {
    Finish(Feed(Initial, toks))
  }

  /**
   * `parse_llm_response`: the scan over `lines()` of the reply. The scan's
   * variables are kept together in one `ScanState`; `ScanLine` is the body
   * of the loop.
   */
  method ParseResponse(respText: string) returns (r: Result<Reply, ParseError>)
    ensures r == Parse(Tokenize(Lines(respText)))
  {
    var lines := Lines(respText);
    var state := Initial;
    for i := 0 to |lines|
      invariant Feed(Initial, Tokenize(lines[..i])) == Ok(state)
    {
      ScanAdvance(lines, i, state);
      var next := ScanLine(state, lines[i]);
      if next.Err? {
        ScanStops(lines, i);
        return Err(next.error);
      }
      state := next.value;
    }
    assert lines[..|lines|] == lines;
    if state.inFile {
      return Err(UnexpectedEnd);
    }
    return Ok(Reply(JoinLines(state.comments), state.files, JoinLines(state.remaining)));
  }

  /** One pass of the loop body: the tests in the order the source applies them. */
  method ScanLine(s: ScanState, line: string) returns (r: Result<ScanState, ParseError>)
    ensures r == Step(s, Tok(line))
  {
    var trimmed := Trim(line);
    if StartsWith(trimmed, ThinkOpen) {
      return Ok(s.(inThink := true));
    }
    if StartsWith(trimmed, ThinkClose) {
      return Ok(s.(inThink := false));
    }
    if s.inThink {
      return Ok(s);
    }
    if trimmed == ExplainStart {
      return Ok(s.(inComment := true));
    }
    if trimmed == ExplainEnd {
      return Ok(s.(inComment := false));
    }
    if s.inComment {
      return Ok(s.(comments := s.comments + [line]));
    }
    if StartsWith(line, SectionPrefix) && EndsWith(line, OpenSuffix) {
      if |line| < |SectionPrefix| + |OpenSuffix| {
        return Err(SliceOutOfOrder(line));
      }
      return Ok(s.(inFile := true, currentPath := line[|SectionPrefix|..|line| - |OpenSuffix|], currentFile := []));
    }
    if StartsWith(line, SectionPrefix) && EndsWith(line, CloseSuffix) {
      var files := s.files;
      if s.currentPath != "" {
        files := files + [(s.currentPath, JoinLines(s.currentFile))];
      } else {
        assert files + [] == files;
      }
      return Ok(s.(inFile := false, files := files));
    }
    if s.inFile {
      return Ok(s.(currentFile := s.currentFile + [line]));
    }
    return Ok(s.(remaining := s.remaining + [line]));
  }

  /** The loop's step: scanning one more line is one more `Step`. */
  lemma ScanAdvance(lines: seq<string>, i: nat, state: ScanState)
    requires i < |lines| && Feed(Initial, Tokenize(lines[..i])) == Ok(state)
    ensures Feed(Initial, Tokenize(lines[..i + 1])) == Step(state, Tok(lines[i]))
  {
    TokenizeSnoc(lines, i);
    FeedSnoc(Initial, Tokenize(lines[..i]), Tok(lines[i]));
  }

  /** The loop's early return: a failure on line `i` is the outcome of the whole scan. */
  lemma ScanStops(lines: seq<string>, i: nat)
    requires i < |lines| && Feed(Initial, Tokenize(lines[..i + 1])).Err?
    ensures Feed(Initial, Tokenize(lines)) == Feed(Initial, Tokenize(lines[..i + 1]))
  {
    SplitAt(lines, i + 1);
    FailedLinesFinal(lines[..i + 1], lines[i + 1..]);
  }

  lemma SplitAt(lines: seq<string>, i: nat)
    requires i <= |lines|
    ensures lines[..i] + lines[i..] == lines
  {
  }

  lemma FailedLinesFinal(a: seq<string>, b: seq<string>)
    requires Feed(Initial, Tokenize(a)).Err?
    ensures Feed(Initial, Tokenize(a + b)) == Feed(Initial, Tokenize(a))
  {
    TokenizeAppend(a, b);
    FailureIsFinal(Initial, Tokenize(a), Tokenize(b));
  }

  lemma TokenizeSnoc(lines: seq<string>, i: nat)
    requires i < |lines|
    ensures Tokenize(lines[..i + 1]) == Tokenize(lines[..i]) + [Tok(lines[i])]
  {
    assert lines[..i + 1][..i] == lines[..i];
  }

  /** Classifying is line by line: it distributes over concatenation. */
  lemma {:induction false} TokenizeAppend(a: seq<string>, b: seq<string>)
    ensures Tokenize(a + b) == Tokenize(a) + Tokenize(b)
    decreases |b|
  {
    if b == [] {
      assert a + b == a;
    } else {
      var b' := b[..|b| - 1];
      assert (a + b)[..|a + b| - 1] == a + b';
      assert (a + b)[|a + b| - 1] == b[|b| - 1];
      TokenizeAppend(a, b');
      assert Tokenize(a) + Tokenize(b') + [Tok(b[|b| - 1])] == Tokenize(a) + (Tokenize(b') + [Tok(b[|b| - 1])]);
    }
  }

  lemma TokenizeOne(line: string)
    ensures Tokenize([line]) == [Tok(line)]
  {
    assert [line][..0] == [];
  }

  /** `Tokenize([x] + m + [y])`, split at its two ends. */
  lemma TokenizeFramed(x: string, m: seq<string>, y: string)
    ensures Tokenize([x] + m + [y]) == [Tok(x)] + Tokenize(m) + [Tok(y)]
  {
    TokenizeAppend([x], m);
    TokenizeAppend([x] + m, [y]);
    TokenizeOne(x);
    TokenizeOne(y);
  }

  lemma FeedSnoc(s: ScanState, toks: seq<Token>, tok: Token)
    ensures Feed(s, toks + [tok])
      == if Feed(s, toks).Err? then Feed(s, toks) else Step(Feed(s, toks).value, tok)
  {
    assert (toks + [tok])[..|toks|] == toks;
  }

  /** Scanning a concatenation is scanning its parts one after the other. */
  lemma {:induction false} FeedAppend(s: ScanState, a: seq<Token>, b: seq<Token>)
    ensures Feed(s, a + b) == Then(Feed(s, a), b)
    decreases |b|
  {
    if b == [] {
      assert a + b == a;
    } else {
      var b' := b[..|b| - 1];
      assert (a + b)[..|a + b| - 1] == a + b';
      assert (a + b)[|a + b| - 1] == b[|b| - 1];
      FeedAppend(s, a, b');
    }
  }

  /** Once a step has failed, no later line changes the outcome. */
  lemma FailureIsFinal(s: ScanState, a: seq<Token>, b: seq<Token>)
    requires Feed(s, a).Err?
    ensures Feed(s, a + b) == Feed(s, a)
  {
    FeedAppend(s, a, b);
  }

  lemma FeedOne(s: ScanState, tok: Token)
    ensures Feed(s, [tok]) == Step(s, tok)
  {
    assert [tok][..0] == [];
  }

  /** Scanning `[x] + m + [y]` is the step on `x`, the stretch `m`, then the step on `y`. */
  lemma FeedFramed(s: ScanState, x: Token, m: seq<Token>, y: Token)
    ensures Feed(s, [x] + m + [y]) == Then(Then(Step(s, x), m), [y])
  {
    FeedOne(s, x);
    FeedAppend(s, [x], m);
    FeedAppend(s, [x] + m, [y]);
    var r := Then(Step(s, x), m);
    if r.Ok? {
      FeedOne(r.value, y);
    }
  }

  /**
   * Every marker starts with '<' or '=' once trimmed, and the file markers
   * with '=' as received: a line that does neither is content.
   */
  lemma UnmarkedLine(line: string)
    requires Trim(line) == [] || (Trim(line)[0] != '<' && Trim(line)[0] != '=')
    requires line == [] || line[0] != '='
    ensures IsPlain(line)
  {
    assert ThinkOpen[0] == '<' && ThinkClose[0] == '<';
    assert ExplainStart[0] == '=' && ExplainEnd[0] == '=' && SectionPrefix[0] == '=';
  }

  /** The panicking slice is reached by exactly one line. */
  lemma EmptySliceLineOnly(line: string)
    ensures (IsFileOpen(line) && |line| < |SectionPrefix| + |OpenSuffix|) <==> line == EmptySliceLine
  {
    if line == EmptySliceLine {
      assert line[..4] == SectionPrefix;
      assert line[|line| - 14..] == OpenSuffix;
    }
    if IsFileOpen(line) && |line| < 18 {
      var n := |line|;
      assert line[n - 14] == ' ' by {
        assert line[n - 14..][0] == OpenSuffix[0];
      }
      assert forall j :: 0 <= j < 3 ==> line[j] == '=' by {
        assert line[..4] == SectionPrefix;
        forall j | 0 <= j < 3 ensures line[j] == '=' {
          assert line[..4][j] == line[j];
        }
      }
      assert n == 17;
      assert line == line[..3] + line[3..];
      assert line[..3] == "===" by {
        assert line[..4][..3] == line[..3];
      }
    }
  }

  /** A line whose trim starts "</think>" closes a think block: it cannot also start "<think>". */
  lemma ThinkCloseRecognised(line: string)
    requires IsThinkClose(line)
    ensures Classify(line) == ThinkCloseMark
  {
    var t := Trim(line);
    assert t[1] == t[..8][1] == '/';
  }

  // Each marker, alone on a line, is recognised as itself.

  lemma ThinkOpenLine()
    ensures Classify(ThinkOpen) == ThinkOpenMark
  {
    TrimUnchanged(ThinkOpen);
  }

  lemma ThinkCloseLine()
    ensures Classify(ThinkClose) == ThinkCloseMark
  {
    TrimUnchanged(ThinkClose);
    ThinkCloseRecognised(ThinkClose);
  }

  lemma ExplainStartLine()
    ensures Classify(ExplainStart) == ExplainStartMark
  {
    assert Trim(ExplainStart) == ExplainStart by {
      TrimUnchanged(ExplainStart);
    }
    assert ExplainStart[0] != ThinkOpen[0];
  }

  lemma ExplainEndLine()
    ensures Classify(ExplainEnd) == ExplainEndMark
  {
    assert Trim(ExplainEnd) == ExplainEnd by {
      TrimUnchanged(ExplainEnd);
    }
    assert ExplainEnd[0] != ThinkOpen[0];
  }

  function OpenLine(path: string): string { SectionPrefix + path + OpenSuffix }
  function CloseLine(path: string): string { SectionPrefix + path + CloseSuffix }

  /** An open line is recognised as such, by nothing earlier, and yields its path verbatim. */
  lemma OpenLineShape(path: string)
    ensures Classify(OpenLine(path)) == FileOpenMark
    ensures |OpenLine(path)| >= |SectionPrefix| + |OpenSuffix|
    ensures OpenLine(path)[|SectionPrefix|..|OpenLine(path)| - |OpenSuffix|] == path
  {
    var line := OpenLine(path);
    var n := |line|;
    assert line[0] == '=' && line[n - 1] == '=';
    TrimUnchanged(line);
    assert line[..4] == SectionPrefix;
    assert line[n - 14..] == OpenSuffix;
    assert line[4 + |path|] == ' ';
    assert !StartsWith(line, ThinkOpen) && !StartsWith(line, ThinkClose) by {
      assert line[0] != ThinkOpen[0];
    }
    assert line != ExplainStart by {
      if n == |ExplainStart| {
        assert ExplainStart[7] == 'L';
      }
    }
    assert line != ExplainEnd by {
      if n == |ExplainEnd| {
        assert ExplainEnd[5] == 'X';
      }
    }
    assert line[4..n - 14] == path;
  }

  /** A close line, whatever its path, is recognised as a close line and by nothing earlier. */
  lemma CloseLineShape(path: string)
    ensures Classify(CloseLine(path)) == FileCloseMark
  {
    var line := CloseLine(path);
    var n := |line|;
    assert line[0] == '=' && line[n - 1] == '=';
    TrimUnchanged(line);
    assert line[..4] == SectionPrefix;
    assert line[n - 12..] == CloseSuffix;
    assert line[4 + |path|] == ' ';
    assert !StartsWith(line, ThinkOpen) && !StartsWith(line, ThinkClose) by {
      assert line[0] != ThinkOpen[0];
    }
    assert line != ExplainStart by {
      if n == |ExplainStart| {
        assert ExplainStart[9] == 'I';
      }
    }
    assert line != ExplainEnd by {
      if n == |ExplainEnd| {
        assert ExplainEnd[7] == 'L';
      }
    }
    assert line[n - 5] == 'D';
    assert !EndsWith(line, OpenSuffix) by {
      if n >= 14 {
        assert OpenSuffix[9] == 'T';
        assert line[n - 14..][9] == line[n - 5];
      }
    }
  }

  /** Tokenizing keeps the lines. */
  lemma {:induction false} LinesOfTokenize(m: seq<string>)
    ensures LinesOf(Tokenize(m)) == m
    decreases |m|
  {
    if m != [] {
      var n := |m|;
      LinesOfTokenize(m[..n - 1]);
      assert Tokenize(m)[..n - 1] == Tokenize(m[..n - 1]);
      assert m == m[..n - 1] + [m[n - 1]];
    }
  }

  /** Lines whose classifications lie in `marks` become tokens whose marks do. */
  lemma {:induction false} TokenizeMarks(m: seq<string>, marks: set<Marker>)
    requires forall k :: 0 <= k < |m| ==> Classify(m[k]) in marks
    ensures forall k :: 0 <= k < |m| ==> Tokenize(m)[k].mark in marks
    decreases |m|
  {
    if m != [] {
      var n := |m|;
      TokenizeMarks(m[..n - 1], marks);
      assert Classify(m[n - 1]) in marks;
      assert Tokenize(m)[..n - 1] == Tokenize(m[..n - 1]);
    }
  }

  /** Inside a think block every token but a think-close is dropped. */
  lemma {:induction false} ThinkAbsorbs(t: ScanState, m: seq<Token>)
    requires t.inThink
    requires forall k :: 0 <= k < |m| ==> m[k].mark != ThinkCloseMark
    ensures Feed(t, m) == Ok(t)
    decreases |m|
  {
    if m != [] {
      ThinkAbsorbs(t, m[..|m| - 1]);
    }
  }

  /** A think block leaves the scan exactly as it found it. */
  lemma ThinkBlockInvisible(s: ScanState, open: Token, m: seq<Token>, close: Token)
    requires !s.inThink
    requires open.mark == ThinkOpenMark && close.mark == ThinkCloseMark
    requires forall k :: 0 <= k < |m| ==> m[k].mark != ThinkCloseMark
    ensures Feed(s, [open] + m + [close]) == Ok(s)
  {
    var t := s.(inThink := true);
    FeedFramed(s, open, m, close);
    assert Step(s, open) == Ok(t);
    ThinkAbsorbs(t, m);
    FeedOne(t, close);
    assert Step(t, close) == Ok(s);
  }

  /**
   * Nothing from a think block reaches the explanation, the files or the
   * trailing text: erasing the block does not change the parse.
   */
  lemma ThinkBlockErasable(a: seq<Token>, open: Token, m: seq<Token>, close: Token, b: seq<Token>)
    requires !(Feed(Initial, a).Ok? && Feed(Initial, a).value.inThink)
    requires open.mark == ThinkOpenMark && close.mark == ThinkCloseMark
    requires forall k :: 0 <= k < |m| ==> m[k].mark != ThinkCloseMark
    ensures Parse(a + [open] + m + [close] + b) == Parse(a + b)
  {
    var block := [open] + m + [close];
    assert a + [open] + m + [close] + b == a + (block + b);
    FeedAppend(Initial, a, block + b);
    FeedAppend(Initial, a, b);
    if Feed(Initial, a).Ok? {
      var s := Feed(Initial, a).value;
      FeedAppend(s, block, b);
      ThinkBlockInvisible(s, open, m, close);
    }
  }

  /** Inside an explain block every token's line is kept, untrimmed and in order. */
  lemma {:induction false} CommentCollects(t: ScanState, m: seq<Token>)
    requires !t.inThink && t.inComment
    requires forall k :: 0 <= k < |m| ==> m[k].mark in {FileOpenMark, FileCloseMark, Content}
    ensures Feed(t, m) == Ok(t.(comments := t.comments + LinesOf(m)))
    decreases |m|
  {
    if m != [] {
      var n := |m|;
      var m' := m[..n - 1];
      CommentCollects(t, m');
      assert t.comments + LinesOf(m') + [m[n - 1].line] == t.comments + LinesOf(m);
    } else {
      assert t.comments + LinesOf(m) == t.comments;
    }
  }

  /**
   * An explain block adds exactly its inner lines to the explanation and
   * changes nothing else; inside an open file section the file flag stays set.
   */
  lemma ExplainBlock(s: ScanState, open: Token, m: seq<Token>, close: Token)
    requires !s.inThink && !s.inComment
    requires open.mark == ExplainStartMark && close.mark == ExplainEndMark
    requires forall k :: 0 <= k < |m| ==> m[k].mark in {FileOpenMark, FileCloseMark, Content}
    ensures Feed(s, [open] + m + [close]) == Ok(s.(comments := s.comments + LinesOf(m)))
  {
    var t := s.(inComment := true);
    FeedFramed(s, open, m, close);
    assert Step(s, open) == Ok(t);
    CommentCollects(t, m);
    var u := t.(comments := t.comments + LinesOf(m));
    FeedOne(u, close);
    assert Step(u, close) == Ok(s.(comments := s.comments + LinesOf(m)));
  }

  /** An open line starts a new section and throws away any unfinished one. */
  lemma OpenDiscardsBuffer(s: ScanState, open: Token, path: string)
    requires !s.inThink && !s.inComment
    requires open.mark == FileOpenMark && open.line == OpenLine(path)
    ensures Step(s, open) == Ok(s.(inFile := true, currentPath := path, currentFile := []))
  {
    OpenLineShape(path);
  }

  /**
   * A close line ignores its own path: it emits the section last opened
   * (even when the scan is outside a file, where that re-emits the previous
   * section) unless that path is empty, and leaves the file state.
   */
  lemma CloseIgnoresPath(s: ScanState, close: Token)
    requires !s.inThink && !s.inComment && close.mark == FileCloseMark
    ensures Step(s, close) == Ok(s.(inFile := false, files := s.files + Emitted(s)))
  {
  }

  /** Inside a file section every content line is buffered, untrimmed and in order. */
  lemma {:induction false} FileCollects(t: ScanState, m: seq<Token>)
    requires !t.inThink && !t.inComment && t.inFile
    requires forall k :: 0 <= k < |m| ==> m[k].mark == Content
    ensures Feed(t, m) == Ok(t.(currentFile := t.currentFile + LinesOf(m)))
    decreases |m|
  {
    if m != [] {
      var n := |m|;
      var m' := m[..n - 1];
      FileCollects(t, m');
      assert t.currentFile + LinesOf(m') + [m[n - 1].line] == t.currentFile + LinesOf(m);
    } else {
      assert t.currentFile + LinesOf(m) == t.currentFile;
    }
  }

  /**
   * A file section emits one entry, its path taken verbatim from the open
   * line and its content the inner lines joined by "\n", whatever path the
   * close line names; an empty path emits nothing.
   */
  lemma FileBlock(s: ScanState, open: Token, path: string, m: seq<Token>, close: Token)
    requires !s.inThink && !s.inComment
    requires open.mark == FileOpenMark && open.line == OpenLine(path) && close.mark == FileCloseMark
    requires forall k :: 0 <= k < |m| ==> m[k].mark == Content
    ensures Feed(s, [open] + m + [close])
      == Ok(s.(inFile := false, currentPath := path, currentFile := LinesOf(m),
               files := s.files + (if path != "" then [(path, JoinLines(LinesOf(m)))] else [])))
  {
    FeedFramed(s, open, m, close);
    OpenDiscardsBuffer(s, open, path);
    var t := s.(inFile := true, currentPath := path, currentFile := []);
    FileCollects(t, m);
    assert [] + LinesOf(m) == LinesOf(m);
    var u := t.(currentFile := LinesOf(m));
    CloseIgnoresPath(u, close);
    FeedOne(u, close);
  }

  /** In the normal state content lines go to the trailing text, in order, and touch nothing else. */
  lemma {:induction false} TrailingCollects(s: ScanState, m: seq<Token>)
    requires s.Normal()
    requires forall k :: 0 <= k < |m| ==> m[k].mark == Content
    ensures Feed(s, m) == Ok(s.(remaining := s.remaining + LinesOf(m)))
    decreases |m|
  {
    if m != [] {
      var n := |m|;
      var m' := m[..n - 1];
      TrailingCollects(s, m');
      assert s.remaining + LinesOf(m') + [m[n - 1].line] == s.remaining + LinesOf(m);
    } else {
      assert s.remaining + LinesOf(m) == s.remaining;
    }
  }

  /**
   * Only a close line ends a file section: from inside one, a stretch with no
   * close line leaves the section open or fails, and with no open line in it
   * either it cannot fail.
   */
  lemma {:induction false} OpenStaysOpen(t: ScanState, m: seq<Token>)
    requires t.inFile
    requires forall k :: 0 <= k < |m| ==> m[k].mark != FileCloseMark
    ensures Feed(t, m).Err? || Feed(t, m).value.inFile
    ensures (forall k :: 0 <= k < |m| ==> m[k].mark != FileOpenMark) ==> Feed(t, m).Ok?
    decreases |m|
  {
    if m != [] {
      OpenStaysOpen(t, m[..|m| - 1]);
    }
  }

  /**
   * A reply that opens a file section and never closes it fails as a whole,
   * whatever think blocks, explain blocks or further open lines follow; with
   * no further open line the failure is the unexpected end.
   */
  lemma UnclosedSectionFails(a: seq<Token>, open: Token, path: string, m: seq<Token>)
    requires Feed(Initial, a).Ok?
    requires !Feed(Initial, a).value.inThink && !Feed(Initial, a).value.inComment
    requires open.mark == FileOpenMark && open.line == OpenLine(path)
    requires forall k :: 0 <= k < |m| ==> m[k].mark != FileCloseMark
    ensures Parse(a + [open] + m).Err?
    ensures (forall k :: 0 <= k < |m| ==> m[k].mark != FileOpenMark) ==> Parse(a + [open] + m) == Err(UnexpectedEnd)
  {
    var s := Feed(Initial, a).value;
    assert a + [open] + m == a + ([open] + m);
    FeedAppend(Initial, a, [open] + m);
    FeedAppend(s, [open], m);
    FeedOne(s, open);
    OpenDiscardsBuffer(s, open, path);
    OpenStaysOpen(s.(inFile := true, currentPath := path, currentFile := []), m);
  }
}
