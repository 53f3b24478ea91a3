/**
 * The reply format, read both ways. The user prompt wraps every input file
 * in the section markers that `parse_llm_response` reads, and the system
 * prompt asks the model to answer with an explain section followed by file
 * sections in that same grammar. The lemmas here state that text written in
 * that grammar parses back to exactly what was written.
 */
module Protocol {
  import opened Wrappers
  import opened Text
  import opened Parser
  import opened Prompts

  /** A path a section can name and have read back: non-empty and on one line. */
  predicate SectionPath(path: string) {
    path != "" && '\n' !in path
  }

  /** Content that a section carries through unchanged: no carriage return, no marker line. */
  predicate Carried(content: string) {
    '\r' !in content && forall k :: 0 <= k < |SplitNewlines(content)| ==> IsPlain(SplitNewlines(content)[k])
  }

  /** An explanation that an explain section carries through unchanged. */
  predicate Explainable(text: string) {
    '\r' !in text && forall k :: 0 <= k < |SplitNewlines(text)| ==> IsExplainText(SplitNewlines(text)[k])
  }

  /** The explain section of a reply in the format the system prompt asks for. */
  function ExplainSection(explanation: string): string {
    ExplainStart + "\n" + (explanation + "\n") + (ExplainEnd + "\n")
  }

  /** A reply written in the requested format: the explanation, then one section per file. */
  function RenderReply(explanation: string, files: seq<(string, string)>): string {
    ExplainSection(explanation) + Sections(files)
  }

  /** The lines of a file section: its open line, the content's lines, its close line. */
  lemma SectionLines(path: string, content: string)
    requires '\n' !in path && '\r' !in content
    ensures Lines(FileSection(path, content)) == [OpenLine(path)] + SplitNewlines(content) + [CloseLine(path)]
  {
    SectionShape(path, content);
    FramedText(OpenLine(path), content, CloseLine(path));
  }

  /** A file section is its open line, its content and its close line, each ending a line. */
  lemma SectionShape(path: string, content: string)
    requires '\n' !in path
    ensures FileSection(path, content) == OpenLine(path) + "\n" + (content + "\n") + (CloseLine(path) + "\n")
    ensures StandsAlone(OpenLine(path)) && StandsAlone(CloseLine(path))
  {
    assert StandsAlone(OpenSuffix) && StandsAlone(CloseSuffix) && OpenSuffix != [] && CloseSuffix != [];
    assert '\n' !in SectionPrefix + path by {
      assert forall c :: c in SectionPrefix + path ==> c in SectionPrefix || c in path;
    }
    StandsAloneJoin(SectionPrefix + path, OpenSuffix);
    StandsAloneJoin(SectionPrefix + path, CloseSuffix);
  }

  lemma ExplainMarkersStandAlone()
    ensures StandsAlone(ExplainStart) && StandsAlone(ExplainEnd)
  {
  }

  /** The lines of an explain section: its markers around the explanation's lines. */
  lemma ExplainSectionLines(explanation: string)
    requires '\r' !in explanation
    ensures Lines(ExplainSection(explanation)) == [ExplainStart] + SplitNewlines(explanation) + [ExplainEnd]
  {
    ExplainMarkersStandAlone();
    FramedText(ExplainStart, explanation, ExplainEnd);
  }

  /** Plain lines make content tokens. */
  lemma PlainTokens(m: seq<string>)
    requires forall k :: 0 <= k < |m| ==> IsPlain(m[k])
    ensures forall k :: 0 <= k < |Tokenize(m)| ==> Tokenize(m)[k].mark == Content
  {
    TokenizeMarks(m, {Content});
  }

  /** Lines that are no think or explain marker make tokens an explain block keeps. */
  lemma ExplainTokens(m: seq<string>)
    requires forall k :: 0 <= k < |m| ==> IsExplainText(m[k])
    ensures forall k :: 0 <= k < |Tokenize(m)| ==> Tokenize(m)[k].mark in {FileOpenMark, FileCloseMark, Content}
  {
    TokenizeMarks(m, {FileOpenMark, FileCloseMark, Content});
  }

  /** The tokens of a file section, and what each of them is. */
  lemma SectionTokens(path: string, content: string)
    requires '\n' !in path && Carried(content)
    ensures Tokenize(Lines(FileSection(path, content)))
            == [Tok(OpenLine(path))] + Tokenize(SplitNewlines(content)) + [Tok(CloseLine(path))]
    ensures Tok(OpenLine(path)).mark == FileOpenMark && Tok(CloseLine(path)).mark == FileCloseMark
    ensures forall k :: 0 <= k < |Tokenize(SplitNewlines(content))| ==> Tokenize(SplitNewlines(content))[k].mark == Content
    ensures LinesOf(Tokenize(SplitNewlines(content))) == SplitNewlines(content)
  {
    SectionLines(path, content);
    TokenizeFramed(OpenLine(path), SplitNewlines(content), CloseLine(path));
    OpenLineShape(path);
    CloseLineShape(path);
    PlainTokens(SplitNewlines(content));
    LinesOfTokenize(SplitNewlines(content));
  }

  /**
   * From the normal state, a file section emits exactly its (path, content)
   * entry and leaves the scan in the normal state with nothing else changed
   * but the last section's path and lines.
   */
  lemma SectionFeed(s: ScanState, path: string, content: string)
    requires s.Normal() && SectionPath(path) && Carried(content)
    ensures Feed(s, Tokenize(Lines(FileSection(path, content))))
            == Ok(s.(currentPath := path, currentFile := SplitNewlines(content), files := s.files + [(path, content)]))
  {
    var m := Tokenize(SplitNewlines(content));
    var open, close := Tok(OpenLine(path)), Tok(CloseLine(path));
    SectionTokens(path, content);
    FileBlock(s, open, path, m, close);
    JoinSplit(content);
  }

  /** A section list is empty or ends a line. */
  lemma SectionsEnd(pairs: seq<(string, string)>)
    ensures Sections(pairs) == [] || Sections(pairs)[|Sections(pairs)| - 1] == '\n'
  {
  }

  /** Well-formed sections, read in order from the normal state, emit exactly their entries. */
  lemma {:induction false} SectionsFeed(s: ScanState, pairs: seq<(string, string)>)
    requires s.Normal()
    requires forall i :: 0 <= i < |pairs| ==> SectionPath(pairs[i].0) && Carried(pairs[i].1)
    ensures Feed(s, Tokenize(Lines(Sections(pairs)))).Ok?
    ensures var t := Feed(s, Tokenize(Lines(Sections(pairs)))).value;
            t.Normal() && t.files == s.files + pairs && t.comments == s.comments && t.remaining == s.remaining
    decreases |pairs|
  {
    if pairs == [] {
      assert Lines("") == [];
      assert Tokenize([]) == [];
      assert s.files + pairs == s.files;
    } else {
      var n := |pairs|;
      var front, last := pairs[..n - 1], pairs[n - 1];
      assert pairs == front + [last];
      SectionsFeed(s, front);
      FeedSections(s, front, last);
      var t := Feed(s, Tokenize(Lines(Sections(front)))).value;
      SectionFeed(t, last.0, last.1);
      assert s.files + front + [last] == s.files + pairs;
    }
  }

  /** Scanning one more section continues the scan of the sections before it. */
  lemma FeedSections(s: ScanState, front: seq<(string, string)>, last: (string, string))
    ensures Feed(s, Tokenize(Lines(Sections(front + [last]))))
            == Then(Feed(s, Tokenize(Lines(Sections(front)))), Tokenize(Lines(FileSection(last.0, last.1))))
  {
    var before, section := Sections(front), FileSection(last.0, last.1);
    assert (front + [last])[..|front|] == front;
    assert Sections(front + [last]) == before + section;
    SectionsEnd(front);
    LinesAppend(before, section);
    TokenizeAppend(Lines(before), Lines(section));
    FeedAppend(s, Tokenize(Lines(before)), Tokenize(Lines(section)));
  }

  /** A single file section, as the user prompt writes it, parses back to its (path, content) entry. */
  lemma SectionRoundTrip(path: string, content: string)
    requires SectionPath(path) && Carried(content)
    ensures Parse(Tokenize(Lines(FileSection(path, content)))) == Ok(Reply("", [(path, content)], ""))
  {
    SectionFeed(Initial, path, content);
    assert [] + [(path, content)] == [(path, content)];
  }

  /** The file sections of a user prompt parse back to its (path, content) entries, in order. */
  lemma SectionsRoundTrip(pairs: seq<(string, string)>)
    requires forall i :: 0 <= i < |pairs| ==> SectionPath(pairs[i].0) && Carried(pairs[i].1)
    ensures Parse(Tokenize(Lines(Sections(pairs)))) == Ok(Reply("", pairs, ""))
  {
    SectionsFeed(Initial, pairs);
    assert [] + pairs == pairs;
  }

  /** An explain section, read from the initial state, records exactly the explanation's lines. */
  lemma ExplainFeed(explanation: string)
    requires Explainable(explanation)
    ensures Feed(Initial, Tokenize(Lines(ExplainSection(explanation))))
            == Ok(Initial.(comments := SplitNewlines(explanation)))
  {
    var m := SplitNewlines(explanation);
    ExplainSectionLines(explanation);
    TokenizeFramed(ExplainStart, m, ExplainEnd);
    ExplainStartLine();
    ExplainEndLine();
    ExplainTokens(m);
    ExplainBlock(Initial, Tok(ExplainStart), Tokenize(m), Tok(ExplainEnd));
    LinesOfTokenize(m);
    assert [] + m == m;
  }

  /**
   * A reply in the requested format, an explanation followed by well-formed
   * file sections, parses back to that explanation, those entries in order
   * and no trailing text.
   */
  lemma ReplyRoundTrip(explanation: string, files: seq<(string, string)>)
    requires Explainable(explanation)
    requires forall i :: 0 <= i < |files| ==> SectionPath(files[i].0) && Carried(files[i].1)
    ensures Parse(Tokenize(Lines(RenderReply(explanation, files)))) == Ok(Reply(explanation, files, ""))
  {
    var head, tail := ExplainSection(explanation), Sections(files);
    assert head[|head| - 1] == '\n';
    LinesAppend(head, tail);
    TokenizeAppend(Lines(head), Lines(tail));
    FeedAppend(Initial, Tokenize(Lines(head)), Tokenize(Lines(tail)));
    ExplainFeed(explanation);
    var s := Initial.(comments := SplitNewlines(explanation));
    SectionsFeed(s, files);
    JoinSplit(explanation);
    assert [] + files == files;
  }

  /**
   * A single line that starts with neither '<' nor '=' nor whitespace, and
   * does not end in whitespace, is carried through unchanged both as file
   * content and as an explanation.
   */
  lemma OneLineCarried(line: string)
    requires line != [] && '\n' !in line && '\r' !in line
    requires !IsWhitespace(line[0]) && !IsWhitespace(line[|line| - 1])
    requires line[0] != '<' && line[0] != '='
    ensures Carried(line) && Explainable(line)
  {
    TrimUnchanged(line);
    UnmarkedLine(line);
    SplitSingle(line);
  }
}
