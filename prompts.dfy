/**
 * The two prompts of `src/llm.rs`: the system prompt (`build_system_prompt`),
 * which lists the files the model may write and the user's rules, and the
 * user prompt (`build_user_prompt`), which carries the instruction and every
 * input file wrapped in the same section markers the reply parser reads.
 *
 * Each builder is a method that appends to a growing string in a loop, as
 * the source does, proved to compute a function that states the whole prompt;
 * the lemmas read the prompts back line by line.
 */
module Prompts {
  import opened Wrappers
  import opened Text

  const Intro :=
    "Follow user instructions. When asked to make changes, apply changes to given files. \n"
    + "When asked to create a file, create it. When asked questions, just answer them without creating or modifying files.\n"
    + "When changing files, output an explanation with brief and blunt information about changes.\n"
    + "Then output modified files. Always output full contents of changed files.\n"
    + "Never propose to output files other than the allowed ones:\n"

  const GuidanceOpeningWords := "When the task requires creating files"
  const GuidanceFirstRest := " and you are not allowed to create them, mention the issue in the comments section.\n"
  const GuidanceRest :=
    "When asked to create a new file, output to a new file or extract something from other files - only use allowed files.\n"
    + "When asked to explain code, answer questions, suggest changes or improvements - output only in the EXPLAIN section without modifying files. \n"
    + "Never explain stuff by adding comments to the code unless directly asked to do so.\n"
    + "Do not make unnecessary changes in files. Do not add code comments when not requested. Omit files that need no changes. \n"
    + "Always use defined output format. Do not output additional information outside of defined schema. \n"
    + "Do not change file formatting (spaces, tabs, etc.). New code should have formatting and style consistent with existing code.\n\n"
  const Guidance := GuidanceOpeningWords + GuidanceFirstRest + GuidanceRest

  const FormatExample :=
    "# Output format - example\n"
    + "=== EXPLAIN START ===\n"
    + "Brief explanations and answers to questions\n"
    + "=== EXPLAIN END ===\n"
    + "=== file1.txt === START ===\n"
    + "edited file\n"
    + "=== file1.txt === END ===\n"
    + "=== file2.txt === START ===\n"
    + "edited file\n"
    + "=== file2.txt === END ===\n\n"

  const RulesStartLine := "=== RULES START ==="
  const RulesEndLine := "=== RULES END ==="
  const RulesStart := RulesStartLine + "\n"
  const RulesEnd := RulesEndLine + "\n"

  /** One listed item: after its prefix, ending its line. */
  function ListedLine(prefix: string, item: string): string {
    prefix + item + "\n"
  }

  /** Each item on a line of its own, after `prefix`, in order. */
  function EachLine(prefix: string, items: seq<string>): string
    decreases |items|
  {
    if items == [] then ""
    else EachLine(prefix, items[..|items| - 1]) + ListedLine(prefix, items[|items| - 1])
  }

  /** The rules block: present exactly when there are rules. */
  function RulesBlock(rules: seq<string>): string {
    if rules == [] then "" else RulesStart + EachLine("", rules) + RulesEnd
  }

  /**
   * The system prompt around fixed prose: the introduction, the allowed files
   * one per line each after a space, the guidance, the format example, then
   * the rules block.
   */
  function SystemPromptOf(intro: string, guidance: string, example: string,
                          allowedFiles: seq<string>, rules: seq<string>): string
  {
    intro + EachLine(" ", allowedFiles) + guidance + example + RulesBlock(rules)
  }

  function SystemPrompt(allowedFiles: seq<string>, rules: seq<string>): string {
    SystemPromptOf(Intro, Guidance, FormatExample, allowedFiles, rules)
  }

  /** The `for` loop that pushes one listed line per item onto `prompt`. */
  method PushEach(prompt: string, prefix: string, items: seq<string>) returns (r: string)
    ensures r == prompt + EachLine(prefix, items)
  {
    r := prompt;
    for i := 0 to |items|
      invariant r == prompt + EachLine(prefix, items[..i])
    {
      assert items[..i + 1][..i] == items[..i];
      r := r + ListedLine(prefix, items[i]);
    }
    assert items[..|items|] == items;
  }

  /** `build_system_prompt`: the fixed prose is that of the source. */
  method BuildSystemPrompt(allowedFiles: seq<string>, rules: seq<string>) returns (prompt: string)
    ensures prompt == SystemPrompt(allowedFiles, rules)
  {
    prompt := BuildSystemPromptOf(Intro, Guidance, FormatExample, allowedFiles, rules);
  }

  /** The pushes of `build_system_prompt`, around any fixed prose. */
  method BuildSystemPromptOf(intro: string, guidance: string, example: string,
                             allowedFiles: seq<string>, rules: seq<string>) returns (prompt: string)
    ensures prompt == SystemPromptOf(intro, guidance, example, allowedFiles, rules)
  {
    prompt := intro;
    prompt := PushEach(prompt, " ", allowedFiles);
    prompt := prompt + guidance;
    prompt := prompt + example;
    if rules != [] {
      prompt := prompt + RulesStart;
      prompt := PushEach(prompt, "", rules);
      prompt := prompt + RulesEnd;
    }
  }

  /** Read back with `lines`, the listing gives each item after its prefix, in order. */
  lemma {:induction false} EachLineLines(prefix: string, items: seq<string>)
    requires StandsAlone(prefix)
    requires forall k :: 0 <= k < |items| ==> StandsAlone(items[k])
    ensures |Lines(EachLine(prefix, items))| == |items|
    ensures forall k :: 0 <= k < |items| ==> Lines(EachLine(prefix, items))[k] == prefix + items[k]
    decreases |items|
  {
    if items == [] {
      assert Lines("") == [];
    } else {
      var n := |items|;
      var front := items[..n - 1];
      var item := prefix + items[n - 1];
      EachLineLines(prefix, front);
      assert forall k :: 0 <= k < n - 1 ==> front[k] == items[k];
      var before := EachLine(prefix, front);
      assert EachLine(prefix, items) == before + (item + "\n");
      StandsAloneJoin(prefix, items[n - 1]);
      EachLineEnds(prefix, front);
      LinesLastLine(before, item);
    }
  }

  /** A listing is empty or ends a line. */
  lemma EachLineEnds(prefix: string, items: seq<string>)
    ensures EachLine(prefix, items) == [] || EachLine(prefix, items)[|EachLine(prefix, items)| - 1] == '\n'
  {
  }

  /**
   * After an example that ends with an empty line, the system prompt ends
   * with the rules block's closing marker exactly when there are rules.
   */
  lemma RulesBlockIff(intro: string, guidance: string, example: string,
                      allowedFiles: seq<string>, rules: seq<string>)
    requires |example| >= 2 && example[|example| - 2] == '\n'
    ensures EndsWith(SystemPromptOf(intro, guidance, example, allowedFiles, rules), RulesEnd) <==> rules != []
  {
    var p := SystemPromptOf(intro, guidance, example, allowedFiles, rules);
    var head := intro + EachLine(" ", allowedFiles) + guidance;
    if rules == [] {
      assert p == head + example;
      assert p[|p| - 2] == example[|example| - 2];
      assert RulesEnd[|RulesEnd| - 2] == '=';
    } else {
      assert p == head + example + RulesStart + EachLine("", rules) + RulesEnd;
    }
  }

  /** The format example ends with an empty line. */
  lemma FormatExampleEnds()
    ensures |FormatExample| >= 2 && FormatExample[|FormatExample| - 2] == '\n'
  {
  }

  /** The rules block holds exactly the rules, one per line, in order, between its two marker lines. */
  lemma RulesBlockLines(rules: seq<string>)
    requires rules != []
    requires forall k :: 0 <= k < |rules| ==> StandsAlone(rules[k])
    ensures Lines(RulesBlock(rules)) == [RulesStartLine] + rules + [RulesEndLine]
  {
    EachLineLines("", rules);
    var body := EachLine("", rules);
    assert Lines(body) == rules by {
      assert forall k :: 0 <= k < |rules| ==> "" + rules[k] == rules[k];
    }
    EachLineEnds("", rules);
    assert StandsAlone(RulesStartLine) && StandsAlone(RulesEndLine);
    FramedLines(RulesStartLine, body, RulesEndLine);
  }

  /** The line of the last allowed file runs straight into the guidance. */
  lemma LastFileMeetsGuidance(intro: string, guidance: string, example: string,
                              allowedFiles: seq<string>, rules: seq<string>)
    requires allowedFiles != []
    ensures var p := SystemPromptOf(intro, guidance, example, allowedFiles, rules);
            var f := allowedFiles[|allowedFiles| - 1];
            var at := |intro| + |EachLine(" ", allowedFiles)| - |f| - 1;
            0 <= at && at + |f| + 1 + |guidance| <= |p| && p[at..at + |f| + 1 + |guidance|] == f + "\n" + guidance
  {
    var f := allowedFiles[|allowedFiles| - 1];
    var front := EachLine(" ", allowedFiles[..|allowedFiles| - 1]);
    assert EachLine(" ", allowedFiles) == front + (" " + f + "\n");
    Regrouped(intro, front, " ", f, "\n", guidance, example, RulesBlock(rules));
    MiddleSlice(intro + front + " ", f + "\n" + guidance, example + RulesBlock(rules));
  }

  // Regrouping a concatenation, so that the slice above can be read off.
  lemma Regrouped(a: string, b: string, c: string, d: string, e: string, f: string, g: string, h: string)
    ensures a + (b + (c + d + e)) + f + g + h == (a + b + c) + (d + e + f) + (g + h)
  {
  }

  // The middle part of a three-part concatenation, by its position.
  lemma MiddleSlice(x: string, y: string, z: string)
    ensures (x + y + z)[|x|..|x| + |y|] == y
  {
  }

  /** The last allowed file's line runs into the opening words of the guidance, whatever follows them. */
  lemma LastFileMeetsOpening(intro: string, opening: string, rest: string, example: string,
                             allowedFiles: seq<string>, rules: seq<string>)
    requires allowedFiles != []
    ensures Contains(SystemPromptOf(intro, opening + rest, example, allowedFiles, rules),
                     allowedFiles[|allowedFiles| - 1] + "\n" + opening)
  {
    var p := SystemPromptOf(intro, opening + rest, example, allowedFiles, rules);
    var f := allowedFiles[|allowedFiles| - 1];
    var at := |intro| + |EachLine(" ", allowedFiles)| - |f| - 1;
    LastFileMeetsGuidance(intro, opening + rest, example, allowedFiles, rules);
    GuidanceSplit(f + "\n", opening, rest);
    ContainsFront(p, at, f + "\n" + opening, rest);
  }

  // A string found at a position contains every prefix of it.
  lemma ContainsFront(p: string, at: nat, a: string, b: string)
    requires at + |a + b| <= |p| && p[at..at + |a + b|] == a + b
    ensures Contains(p, a)
  {
    assert p[at..at + |a|] == (a + b)[..|a|];
  }

  /** The prompt for the one file `file1.rs` and no rules lists it right before the guidance. */
  lemma SystemPromptWithFile()
    ensures Contains(SystemPrompt(["file1.rs"], []), "file1.rs" + "\n" + "When the task requires creating files")
  {
    GuidanceOpens();
    ListedBeforeGuidance("file1.rs");
  }

  // The guidance, regrouped as its opening words and the rest.
  lemma GuidanceOpens()
    ensures Guidance == GuidanceOpeningWords + (GuidanceFirstRest + GuidanceRest)
  {
    GuidanceSplit(GuidanceOpeningWords, GuidanceFirstRest, GuidanceRest);
  }

  /** A prompt listing one file, without rules, has that file's line run into the guidance's opening words. */
  lemma ListedBeforeGuidance(f: string)
    requires Guidance == GuidanceOpeningWords + (GuidanceFirstRest + GuidanceRest)
    ensures Contains(SystemPrompt([f], []), f + "\n" + GuidanceOpeningWords)
  {
    LastFileMeetsOpening(Intro, GuidanceOpeningWords, GuidanceFirstRest + GuidanceRest, FormatExample, [f], []);
  }

  // Reading the guidance as its opening words and the rest.
  lemma GuidanceSplit(a: string, b: string, c: string)
    ensures a + b + c == a + (b + c)
  {
  }

  const InstructionsStart := "=== USER INSTRUCTIONS START\n"
  const InstructionsEnd := "\n=== USER INSTRUCTIONS END\n\n"
  const InputFilesHeading := "# User input files:\n"

  /** The instruction between its markers, then the heading of the input files. */
  function Header(instruction: string): string {
    InstructionsStart + instruction + InstructionsEnd + InputFilesHeading
  }

  /** One input file, wrapped in the section markers the reply parser reads. */
  function FileSection(path: string, content: string): string {
    "=== " + path + " === START ===\n" + content + "\n=== " + path + " === END ===\n"
  }

  /** The sections of a list of (path, content) pairs, in order. */
  function Sections(pairs: seq<(string, string)>): string
    decreases |pairs|
  {
    if pairs == [] then ""
    else Sections(pairs[..|pairs| - 1]) + FileSection(pairs[|pairs| - 1].0, pairs[|pairs| - 1].1)
  }

  datatype PromptError = ReadFailed(path: string)  // an input file that cannot be read

  /** The output file is not sent as an input. */
  predicate Skipped(f: string, output: Option<string>) {
    output.Some? && f == output.value
  }

  /**
   * The inputs that go into the prompt, with their contents, in order; the
   * first file that is neither skipped nor readable fails the whole prompt.
   */
  function Inputs(files: seq<string>, output: Option<string>, contents: map<string, string>)
    : Result<seq<(string, string)>, PromptError>
    decreases |files|
  {
    if files == [] then Ok([])
    else
      var before := Inputs(files[..|files| - 1], output, contents);
      var f := files[|files| - 1];
      if before.Err? || Skipped(f, output) then before
      else if f !in contents then Err(ReadFailed(f))
      else Ok(before.value + [(f, contents[f])])
  }

  function UserPrompt(instruction: string, files: seq<string>, output: Option<string>, contents: map<string, string>)
    : Result<string, PromptError>
  {
    match Inputs(files, output, contents)
    case Err(e) => Err(e)
    case Ok(pairs) => Ok(Header(instruction) + Sections(pairs))
  }

  /** `build_user_prompt`, with the readable files' contents given as a map. */
  method BuildUserPrompt(instruction: string, files: seq<string>, output: Option<string>, contents: map<string, string>)
    returns (r: Result<string, PromptError>)
    ensures r == UserPrompt(instruction, files, output, contents)
  {
    var prompt := InstructionsStart;
    prompt := prompt + instruction;
    prompt := prompt + InstructionsEnd;
    prompt := prompt + InputFilesHeading;
    ghost var done: seq<(string, string)> := [];
    for i := 0 to |files|
      invariant Inputs(files[..i], output, contents) == Ok(done)
      invariant prompt == Header(instruction) + Sections(done)
    {
      var f := files[i];
      assert files[..i + 1][..i] == files[..i];
      if output.Some? && f == output.value {
        continue;
      }
      if f !in contents {
        InputsFailureIsFinal(files, i + 1, output, contents);
        return Err(ReadFailed(f));
      }
      var content := contents[f];
      SectionsSnoc(Header(instruction), done, f, content);
      prompt := prompt + FileSection(f, content);
      done := done + [(f, content)];
    }
    assert files[..|files|] == files;
    return Ok(prompt);
  }

  /** One more section at the end of a prompt. */
  lemma SectionsSnoc(head: string, done: seq<(string, string)>, path: string, content: string)
    ensures head + Sections(done) + FileSection(path, content) == head + Sections(done + [(path, content)])
  {
    assert (done + [(path, content)])[..|done|] == done;
  }

  /** A failure on a prefix of the files is the failure of the whole list. */
  lemma {:induction false} InputsFailureIsFinal(files: seq<string>, i: nat, output: Option<string>, contents: map<string, string>)
    requires i <= |files| && Inputs(files[..i], output, contents).Err?
    ensures Inputs(files, output, contents) == Inputs(files[..i], output, contents)
    decreases |files| - i
  {
    if i < |files| {
      assert files[..i + 1][..i] == files[..i];
      InputsFailureIsFinal(files, i + 1, output, contents);
    } else {
      assert files[..i] == files;
    }
  }

  /**
   * The inputs fail exactly when some file that is not the output cannot be
   * read, and then name the first such file; otherwise every sent file is an
   * input other than the output, with its contents.
   */
  lemma {:induction false} InputsSpec(files: seq<string>, output: Option<string>, contents: map<string, string>)
    ensures Inputs(files, output, contents).Err? <==>
            exists j :: 0 <= j < |files| && !Skipped(files[j], output) && files[j] !in contents
    ensures Inputs(files, output, contents).Err? ==>
            exists j :: 0 <= j < |files| && !Skipped(files[j], output) && files[j] !in contents
                        && Inputs(files, output, contents).error == ReadFailed(files[j])
                        && forall k :: 0 <= k < j ==> Skipped(files[k], output) || files[k] in contents
    ensures Inputs(files, output, contents).Ok? ==>
            forall k :: 0 <= k < |Inputs(files, output, contents).value| ==>
              var (f, c) := Inputs(files, output, contents).value[k];
              f in files && !Skipped(f, output) && f in contents && c == contents[f]
    decreases |files|
  {
    if files != [] {
      var n := |files|;
      var front := files[..n - 1];
      InputsSpec(front, output, contents);
      assert forall j :: 0 <= j < n - 1 ==> front[j] == files[j];
      var f := files[n - 1];
      var before := Inputs(front, output, contents);
      if before.Ok? && !Skipped(f, output) && f in contents {
        var pairs := before.value + [(f, contents[f])];
        forall k | 0 <= k < |pairs|
          ensures pairs[k].0 in files && !Skipped(pairs[k].0, output)
                  && pairs[k].0 in contents && pairs[k].1 == contents[pairs[k].0]
        {
          if k < n - 1 && k < |before.value| {
            assert pairs[k] == before.value[k];
            assert pairs[k].0 in front;
          }
        }
      }
    }
  }

  /** Every input file other than the output is sent, with its contents, once the prompt can be built. */
  lemma {:induction false} InputsComplete(files: seq<string>, output: Option<string>, contents: map<string, string>)
    requires Inputs(files, output, contents).Ok?
    ensures forall j :: 0 <= j < |files| && !Skipped(files[j], output) ==>
              files[j] in contents && (files[j], contents[files[j]]) in Inputs(files, output, contents).value
    decreases |files|
  {
    if files != [] {
      var n := |files|;
      var front := files[..n - 1];
      assert Inputs(front, output, contents).Ok?;
      assert forall j :: 0 <= j < n - 1 ==> front[j] == files[j];
      InputsComplete(front, output, contents);
    }
  }

  /** The output file is never among the sections sent. */
  lemma OutputNeverSent(files: seq<string>, output: string, contents: map<string, string>)
    requires Inputs(files, Some(output), contents).Ok?
    ensures forall k :: 0 <= k < |Inputs(files, Some(output), contents).value| ==>
              Inputs(files, Some(output), contents).value[k].0 != output
  {
    InputsSpec(files, Some(output), contents);
  }

  /** Without input files the user prompt is the header alone, the instruction between its markers. */
  lemma EmptyFilesPrompt(instruction: string, output: Option<string>, contents: map<string, string>)
    ensures UserPrompt(instruction, [], output, contents) == Ok(Header(instruction))
    ensures StartsWith(Header(instruction), InstructionsStart)
    ensures Header(instruction)[|InstructionsStart|..|InstructionsStart| + |instruction|] == instruction
    ensures EndsWith(Header(instruction), InputFilesHeading)
  {
    var h := Header(instruction);
    assert Sections([]) == "";
    assert h + "" == h;
    assert h == InstructionsStart + (instruction + InstructionsEnd + InputFilesHeading);
    assert h == (InstructionsStart + instruction + InstructionsEnd) + InputFilesHeading;
  }
}
