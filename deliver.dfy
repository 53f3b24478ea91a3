/**
 * The second half of `run` in `src/app.rs`: the reply is parsed, every path
 * it names is checked against the allow-list before anything is written,
 * the explanation is printed, and the files are written in order.
 *
 * The disk is an object whose file map the writes update in place; which
 * paths cannot be written, and how far a failing write gets, is fixed when
 * it is made. Standard output is a
 * list of printed texts.
 */
module Deliver {
  import opened Wrappers
  import opened Config
  import opened Text
  import opened Parser
  import opened Prompts
  import opened Protocol
  import opened App

  /**
   * The files after `fs::write(path, content)`, which creates (empties) the
   * file and then writes the content. A write to a path that cannot be
   * written fails: either the file cannot be created, and keeps what it
   * held, or the writing breaks off after `cutAt[path]` characters, and the
   * file holds that much of the content.
   */
  function AfterWrite(files: map<string, string>, unwritable: set<string>, cutAt: map<string, nat>,
                      path: string, content: string): map<string, string>
  {
    if path !in unwritable then files[path := content]
    else if path !in cutAt then files
    else files[path := content[..if cutAt[path] < |content| then cutAt[path] else |content|]]
  }

  /** The files on disk and what has been printed so far. */
  class Disk {
    var files: map<string, string>
    var stdout: seq<string>
    const unwritable: set<string>
    const cutAt: map<string, nat>

    constructor (files0: map<string, string>, unwritable0: set<string>, cutAt0: map<string, nat>)
      ensures files == files0 && stdout == [] && unwritable == unwritable0 && cutAt == cutAt0
    {
      files := files0;
      stdout := [];
      unwritable := unwritable0;
      cutAt := cutAt0;
    }

    /** `fs::write`: fails exactly on the paths that cannot be written. */
    method Write(path: string, content: string) returns (ok: bool)
      modifies this
      ensures ok <==> path !in unwritable
      ensures files == AfterWrite(old(files), unwritable, cutAt, path, content)
      ensures stdout == old(stdout)
    {
      if path in unwritable {
        if path in cutAt {
          var n := if cutAt[path] < |content| then cutAt[path] else |content|;
          files := files[path := content[..n]];
        }
        return false;
      }
      files := files[path := content];
      return true;
    }

    /** `println!`. */
    method PrintLine(text: string)
      modifies this
      ensures stdout == old(stdout) + [text]
      ensures files == old(files)
    {
      stdout := stdout + [text];
    }
  }

  /** The position of the first entry whose path is not allowed, if there is one. */
  function FirstDisallowed(files: seq<(string, string)>, allowed: seq<string>): (r: Option<nat>)
    ensures r.None? <==> forall i :: 0 <= i < |files| ==> files[i].0 in allowed
    ensures r.Some? ==> r.value < |files| && files[r.value].0 !in allowed
                        && forall j :: 0 <= j < r.value ==> files[j].0 in allowed
  {
    if files == [] then None
    else if files[0].0 !in allowed then Some(0)
    else
      var rest := FirstDisallowed(files[1..], allowed);
      assert forall i :: 1 <= i < |files| ==> files[i] == files[1..][i - 1];
      match rest
      case None => None
      case Some(k) => Some(k + 1)
  }

  /** The position of the first entry whose path cannot be written, if there is one. */
  function FirstUnwritable(files: seq<(string, string)>, unwritable: set<string>): (r: Option<nat>)
    ensures r.None? <==> forall i :: 0 <= i < |files| ==> files[i].0 !in unwritable
    ensures r.Some? ==> r.value < |files| && files[r.value].0 in unwritable
                        && forall j :: 0 <= j < r.value ==> files[j].0 !in unwritable
  {
    if files == [] then None
    else if files[0].0 in unwritable then Some(0)
    else
      var rest := FirstUnwritable(files[1..], unwritable);
      assert forall i :: 1 <= i < |files| ==> files[i] == files[1..][i - 1];
      match rest
      case None => None
      case Some(k) => Some(k + 1)
  }

  /** The disk after writing the entries in order. */
  function Written(contents: map<string, string>, files: seq<(string, string)>): map<string, string>
    decreases |files|
  {
    if files == [] then contents
    else Written(contents, files[..|files| - 1])[files[|files| - 1].0 := files[|files| - 1].1]
  }

  /** What handing a parsed reply over yields: the outcome, the disk, and what was printed. */
  datatype Delivery = Delivery(result: Result<(), AppError>, contents: map<string, string>, printed: seq<string>)

  /**
   * A reply naming a path outside the allow-list is refused as a whole: the
   * reply text is saved to the dump file and nothing else is written or
   * printed. Otherwise a non-empty explanation is printed, and the entries
   * are written in order up to the first that cannot be written.
   */
  function Delivered(contents: map<string, string>, unwritable: set<string>, cutAt: map<string, nat>,
                     respText: string, explanation: string, files: seq<(string, string)>, allowed: seq<string>,
                     dumpName: string): Delivery
  {
    match FirstDisallowed(files, allowed)
    case Some(i) =>
      Delivery(Err(FileError(Disallowed(files[i].0))),
               AfterWrite(contents, unwritable, cutAt, dumpName, respText), [])
    case None =>
      var printed := if explanation != "" then [explanation] else [];
      match FirstUnwritable(files, unwritable)
      case Some(j) =>
        Delivery(Err(FileError(WriteFailed(files[j].0))),
                 AfterWrite(Written(contents, files[..j]), unwritable, cutAt, files[j].0, files[j].1), printed)
      case None => Delivery(Ok(()), Written(contents, files), printed)
  }

  /** The guard loop, then the explanation, then the write loop. */
  method Deliver(disk: Disk, respText: string, explanation: string, files: seq<(string, string)>,
                 allowed: seq<string>, dumpName: string) returns (r: Result<(), AppError>)
    modifies disk
    ensures var d := Delivered(old(disk.files), disk.unwritable, disk.cutAt, respText, explanation, files, allowed, dumpName);
            r == d.result && disk.files == d.contents && disk.stdout == old(disk.stdout) + d.printed
  {
    for i := 0 to |files|
      invariant forall j :: 0 <= j < i ==> files[j].0 in allowed
      invariant disk.files == old(disk.files) && disk.stdout == old(disk.stdout)
    {
      if files[i].0 !in allowed {
        var saved := disk.Write(dumpName, respText);
        return Err(FileError(Disallowed(files[i].0)));
      }
    }
    if explanation != "" {
      disk.PrintLine(explanation);
    }
    ghost var printed := disk.stdout;
    for i := 0 to |files|
      invariant forall j :: 0 <= j < i ==> files[j].0 !in disk.unwritable
      invariant disk.files == Written(old(disk.files), files[..i])
      invariant disk.stdout == printed
    {
      var ok := disk.Write(files[i].0, files[i].1);
      assert files[..i + 1][..i] == files[..i];
      if !ok {
        return Err(FileError(WriteFailed(files[i].0)));
      }
    }
    assert files[..|files|] == files;
    return Ok(());
  }

  /** What handling a reply text yields: a parse failure changes nothing, otherwise as delivered. */
  function Handled(contents: map<string, string>, unwritable: set<string>, cutAt: map<string, nat>,
                   respText: string, allowed: seq<string>, dumpName: string): Delivery
  {
    match Parse(Tokenize(Lines(respText)))
    case Err(e) => Delivery(Err(ParseFailed(e)), contents, [])
    case Ok(reply) => Delivered(contents, unwritable, cutAt, respText, reply.explanation, reply.files, allowed, dumpName)
  }

  /**
   * The part of `run` after the reply arrives. `dumpName` stands for the
   * `dump_<seconds>.log` name the clock decides.
   */
  method HandleReply(disk: Disk, respText: string, allowed: seq<string>, dumpName: string)
    returns (r: Result<(), AppError>)
    modifies disk
    ensures var d := Handled(old(disk.files), disk.unwritable, disk.cutAt, respText, allowed, dumpName);
            r == d.result && disk.files == d.contents && disk.stdout == old(disk.stdout) + d.printed
  {
    var parsed := ParseResponse(respText);
    if parsed.Err? {
      return Err(ParseFailed(parsed.error));
    }
    r := Deliver(disk, respText, parsed.value.explanation, parsed.value.files, allowed, dumpName);
  }

  // --------------------------------------------------------------------- writes

  /** The content of the last entry for a path, if any entry names it. */
  function LastContent(files: seq<(string, string)>, path: string): (r: Option<string>)
    ensures r.None? <==> forall i :: 0 <= i < |files| ==> files[i].0 != path
    ensures r.Some? ==> exists i :: 0 <= i < |files| && files[i] == (path, r.value)
                                    && forall j :: i < j < |files| ==> files[j].0 != path
    decreases |files|
  {
    if files == [] then None
    else
      var n := |files|;
      if files[n - 1].0 == path then Some(files[n - 1].1)
      else
        var before := LastContent(files[..n - 1], path);
        assert forall i :: 0 <= i < n - 1 ==> files[i] == files[..n - 1][i];
        before
  }

  /**
   * Writing entries in order leaves each named path with the content of its
   * last entry, a later duplicate overwriting an earlier one, and every other
   * path as it was.
   */
  lemma {:induction false} WrittenLast(contents: map<string, string>, files: seq<(string, string)>)
    ensures forall p :: p in Written(contents, files) <==> p in contents || LastContent(files, p).Some?
    ensures forall p :: LastContent(files, p).Some? ==> Written(contents, files)[p] == LastContent(files, p).value
    ensures forall p :: LastContent(files, p).None? && p in contents ==> Written(contents, files)[p] == contents[p]
    decreases |files|
  {
    if files != [] {
      var n := |files|;
      WrittenLast(contents, files[..n - 1]);
      forall p ensures LastContent(files, p) == (if files[n - 1].0 == p then Some(files[n - 1].1)
                                                 else LastContent(files[..n - 1], p)) {
      }
    }
  }

  /** A path no entry names is left as it was. */
  lemma WrittenElsewhere(contents: map<string, string>, files: seq<(string, string)>, p: string)
    requires forall i :: 0 <= i < |files| ==> files[i].0 != p
    ensures p in Written(contents, files) <==> p in contents
    ensures p in contents ==> Written(contents, files)[p] == contents[p]
  {
    WrittenLast(contents, files);
  }

  // ------------------------------------------------------------------- safety

  /**
   * The reply can change no file outside the allow-list: a path that is
   * neither allowed nor the dump file keeps its content, whatever the reply.
   */
  lemma NoWriteOutsideAllowList(contents: map<string, string>, unwritable: set<string>, cutAt: map<string, nat>,
                                respText: string, allowed: seq<string>, dumpName: string, p: string)
    requires p !in allowed && p != dumpName
    ensures var d := Handled(contents, unwritable, cutAt, respText, allowed, dumpName);
            (p in d.contents <==> p in contents) && (p in contents ==> d.contents[p] == contents[p])
  {
    match Parse(Tokenize(Lines(respText)))
    case Err(_) =>
    case Ok(reply) =>
      var files := reply.files;
      if FirstDisallowed(files, allowed).None? {
        match FirstUnwritable(files, unwritable)
        case Some(j) => WrittenElsewhere(contents, files[..j], p);
        case None => WrittenElsewhere(contents, files, p);
      }
  }

  /**
   * The same, for the list `run` builds: whatever the reply, a path that is
   * no file argument, no file listed in a directory argument, not the output
   * and not the dump file keeps its content.
   */
  lemma RunWritesOnlyArguments(args: Cli, config: Config, env: Env, dirs: Dirs, contents: map<string, string>,
                               intro: string, guidance: string, example: string, r: Result<Prepared, AppError>,
                               unwritable: set<string>, cutAt: map<string, nat>, respText: string,
                               dumpName: string, p: string)
    requires Prepares(args, config, env, dirs, contents, intro, guidance, example, r) && r.Ok?
    requires !Contributed(p, args.files, dirs) && args.output != Some(p) && p != dumpName
    ensures var d := Handled(contents, unwritable, cutAt, respText, r.value.allowedFiles, dumpName);
            (p in d.contents <==> p in contents) && (p in contents ==> d.contents[p] == contents[p])
  {
    AllowListSpec(args.files, args.output, dirs);
    NoWriteOutsideAllowList(contents, unwritable, cutAt, respText, r.value.allowedFiles, dumpName, p);
  }

  /**
   * A reply naming a disallowed path writes none of its files and prints
   * nothing; the only change is the dump of the reply text, and the error
   * names the first disallowed path in reply order.
   */
  lemma DisallowedWritesNothing(contents: map<string, string>, unwritable: set<string>, cutAt: map<string, nat>,
                                respText: string, explanation: string, files: seq<(string, string)>, allowed: seq<string>,
                                dumpName: string, i: nat)
    requires i < |files| && files[i].0 !in allowed
    ensures var d := Delivered(contents, unwritable, cutAt, respText, explanation, files, allowed, dumpName);
            d.printed == []
            && (forall p :: p != dumpName ==> (p in d.contents <==> p in contents))
            && (forall p :: p != dumpName && p in contents ==> d.contents[p] == contents[p])
            && (dumpName !in unwritable ==> d.contents[dumpName] == respText)
            && d.result.Err? && d.result.error.FileError? && d.result.error.problem.Disallowed?
            && (exists k :: 0 <= k <= i && files[k].0 == d.result.error.problem.path && files[k].0 !in allowed
                            && forall j :: 0 <= j < k ==> files[j].0 in allowed)
  {
    var k := FirstDisallowed(files, allowed).value;
    assert 0 <= k <= i;
  }

  /**
   * When every path is allowed and writable, the run succeeds, prints the
   * explanation once if there is one, writes the entries in order and
   * nothing else, and leaves each named path with its last entry's content.
   */
  lemma AllowedRepliesAreWritten(contents: map<string, string>, unwritable: set<string>, cutAt: map<string, nat>,
                                 respText: string, explanation: string, files: seq<(string, string)>, allowed: seq<string>,
                                 dumpName: string)
    requires forall i :: 0 <= i < |files| ==> files[i].0 in allowed && files[i].0 !in unwritable
    ensures var d := Delivered(contents, unwritable, cutAt, respText, explanation, files, allowed, dumpName);
            d.result == Ok(())
            && d.printed == (if explanation == "" then [] else [explanation])
            && d.contents == Written(contents, files)
            && forall i :: 0 <= i < |files| ==> files[i].0 in d.contents && d.contents[files[i].0] == LastContent(files, files[i].0).value
  {
    WrittenLast(contents, files);
  }

  /**
   * A write that fails stops the loop: the error names that path, the
   * entries before it stay written, and no entry after it is written. The
   * failing path keeps what it held when its file cannot be created, and
   * otherwise holds the part of the entry's content written before the
   * failure.
   */
  lemma WriteFailureStops(contents: map<string, string>, unwritable: set<string>, cutAt: map<string, nat>,
                          respText: string, explanation: string, files: seq<(string, string)>,
                          allowed: seq<string>, dumpName: string, j: nat)
    requires forall i :: 0 <= i < |files| ==> files[i].0 in allowed
    requires j < |files| && files[j].0 in unwritable
    requires forall i :: 0 <= i < j ==> files[i].0 !in unwritable
    ensures var d := Delivered(contents, unwritable, cutAt, respText, explanation, files, allowed, dumpName);
            var (p, content) := files[j];
            d.result == Err(FileError(WriteFailed(p)))
            && (forall i :: 0 <= i < j && files[i].0 != p ==>
                  files[i].0 in d.contents && d.contents[files[i].0] == LastContent(files[..j], files[i].0).value)
            && (forall q :: q != p && (forall i :: 0 <= i < j ==> files[i].0 != q) ==>
                  (q in d.contents <==> q in contents) && (q in contents ==> d.contents[q] == contents[q]))
            && (p !in cutAt ==> d.contents == Written(contents, files[..j]))
            && (p in cutAt ==> p in d.contents && d.contents[p] <= content
                               && |d.contents[p]| == (if cutAt[p] < |content| then cutAt[p] else |content|)
                               && d.contents == Written(contents, files[..j])[p := d.contents[p]])
  {
    var k := FirstUnwritable(files, unwritable).value;
    assert k == j;
    WrittenLast(contents, files[..j]);
    forall i | 0 <= i < j ensures files[..j][i] == files[i] { }
  }

  // ----------------------------------------------------------------- scenario

  /**
   * A reply that explains itself and rewrites one allowed, writable file,
   * without a final line ending, prints the explanation and replaces that
   * file's content.
   */
  lemma OneFileReply(path: string, explanation: string, content: string, before: string, dumpName: string)
    requires SectionPath(path) && Explainable(explanation) && explanation != "" && Carried(content)
    ensures var respText := ExplainStart + "\n" + explanation + "\n" + ExplainEnd + "\n"
                            + OpenLine(path) + "\n" + content + "\n" + CloseLine(path);
            Handled(map[path := before], {}, map[], respText, [path], dumpName)
            == Delivery(Ok(()), map[path := content], [explanation])
  {
    var respText := ExplainStart + "\n" + explanation + "\n" + ExplainEnd + "\n"
                    + OpenLine(path) + "\n" + content + "\n" + CloseLine(path);
    OneFileParses(path, explanation, content);
    OneFileDelivered(path, explanation, content, before, respText, dumpName);
  }

  /** The one-file reply, with or without its final line ending, parses to its explanation and entry. */
  lemma OneFileParses(path: string, explanation: string, content: string)
    requires SectionPath(path) && Explainable(explanation) && Carried(content)
    ensures Parse(Tokenize(Lines(ExplainStart + "\n" + explanation + "\n" + ExplainEnd + "\n"
                                 + OpenLine(path) + "\n" + content + "\n" + CloseLine(path))))
            == Ok(Reply(explanation, [(path, content)], ""))
  {
    var head := ExplainSection(explanation) + OpenLine(path) + "\n" + (content + "\n");
    OneFileText(path, explanation, content);
    SectionShape(path, content);
    FinalLineEnding(head, CloseLine(path));
    ReplyRoundTrip(explanation, [(path, content)]);
  }

  /** The one-file reply is the rendered reply without its final line ending. */
  lemma OneFileText(path: string, explanation: string, content: string)
    requires '\n' !in path
    ensures var head := ExplainSection(explanation) + OpenLine(path) + "\n" + (content + "\n");
            RenderReply(explanation, [(path, content)]) == head + (CloseLine(path) + "\n")
            && ExplainStart + "\n" + explanation + "\n" + ExplainEnd + "\n"
               + OpenLine(path) + "\n" + content + "\n" + CloseLine(path) == head + CloseLine(path)
            && head[|head| - 1] == '\n'
  {
    OneFileRendered(path, explanation, content);
    Regroup(ExplainStart, explanation, ExplainEnd, OpenLine(path), content, CloseLine(path), "\n");
  }

  lemma OneFileRendered(path: string, explanation: string, content: string)
    requires '\n' !in path
    ensures RenderReply(explanation, [(path, content)])
            == ExplainSection(explanation) + OpenLine(path) + "\n" + (content + "\n") + (CloseLine(path) + "\n")
  {
    var files := [(path, content)];
    SectionShape(path, content);
    assert Sections(files) == FileSection(path, content) by {
      assert files[..0] == [];
    }
    AppendFour(ExplainSection(explanation), OpenLine(path) + "\n", content + "\n", CloseLine(path) + "\n");
  }

  // Regrouping a concatenation of four strings.
  lemma AppendFour(x: string, a: string, b: string, c: string)
    ensures x + (a + b + c) == x + a + b + c
  {
  }

  // Regrouping the one-file reply into its lines, each with its line ending.
  lemma Regroup(s: string, e: string, t: string, o: string, c: string, k: string, nl: string)
    ensures s + nl + e + nl + t + nl + o + nl + c + nl + k
            == s + nl + (e + nl) + (t + nl) + (o + nl) + (c + nl) + k
  {
  }

  /** Delivering one allowed, writable entry replaces that file and prints a non-empty explanation. */
  lemma OneFileDelivered(path: string, explanation: string, content: string, before: string,
                         respText: string, dumpName: string)
    requires explanation != ""
    ensures Delivered(map[path := before], {}, map[], respText, explanation, [(path, content)], [path], dumpName)
            == Delivery(Ok(()), map[path := content], [explanation])
  {
    var files := [(path, content)];
    assert files[..0] == [];
    assert FirstDisallowed(files, [path]).None?;
    assert FirstUnwritable(files, {}).None?;
    assert Written(map[path := before], files) == map[path := before][path := content];
    assert map[path := before][path := content] == map[path := content];
    assert Delivered(map[path := before], {}, map[], respText, explanation, files, [path], dumpName)
           == Delivery(Ok(()), Written(map[path := before], files), [explanation]);
  }

  /**
   * The end-to-end case of `tests/llmpal_test.rs`: the reply rewrites the
   * one input file from "test content" to "modified content" and prints
   * its explanation.
   */
  lemma ReplyRewritesInputFile(path: string, dumpName: string)
    requires SectionPath(path)
    ensures var respText := ExplainStart + "\n" + "Test explanation" + "\n" + ExplainEnd + "\n"
                            + OpenLine(path) + "\n" + "modified content" + "\n" + CloseLine(path);
            Handled(map[path := "test content"], {}, map[], respText, [path], dumpName)
            == Delivery(Ok(()), map[path := "modified content"], ["Test explanation"])
  {
    ReplyWellFormed();
    OneFileReply(path, "Test explanation", "modified content", "test content", dumpName);
  }

  /** The test reply's explanation and content are carried through unchanged. */
  lemma ReplyWellFormed()
    ensures Explainable("Test explanation") && Carried("modified content")
  {
    OneLineCarried("Test explanation");
    OneLineCarried("modified content");
  }
}
