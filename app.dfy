/**
 * The preparation half of `run` in `src/app.rs`: the allow-list built from
 * the command line, the API key, the two prompts and the request envelope,
 * together with the token estimate and the truncation warning test.
 *
 * The filesystem is given as data: which paths are directories, and what
 * reading each directory yields. The request envelope is a JSON value, not
 * its serialised text.
 */
module App {
  import opened Wrappers
  import opened Config
  import opened Prompts
  import opened Parser

  /** Why a run stops; the wording of the source's messages is not modelled. */
  datatype AppError =
    | ApiKeyMissing
    | FileError(problem: FileProblem)
    | ParseFailed(cause: ParseError)
    | InputUnreadable(path: string)   // `build_user_prompt` ends the process on an unreadable input

  datatype FileProblem =
    | DirectoryUnreadable(dir: string)   // `read_dir` failed
    | EntryUnreadable(dir: string)       // reading one entry of the directory failed
    | Disallowed(path: string)           // the reply names a file outside the allow-list
    | WriteFailed(path: string)          // `fs::write` failed

  /** One entry met while reading a directory. */
  datatype DirEntry =
    | Entry(path: string, isDir: bool)
    | NonUnicodeEntry                     // a path `to_str` rejects: skipped
    | BrokenEntry                         // the iterator yielded an error

  /** What reading a directory yields. */
  datatype Listing = Unreadable | Listed(entries: seq<DirEntry>)

  /** The directories on disk, by path, and what reading each yields; any other path is not a directory. */
  type Dirs = map<string, Listing>

  // ---------------------------------------------------------------- allow-list

  /** The files a directory contributes: its non-directory entries with a Unicode path, in listing order. */
  function DirFiles(dir: string, entries: seq<DirEntry>): (r: Result<seq<string>, AppError>)
    ensures r.Err? ==> r.error == FileError(EntryUnreadable(dir))
    decreases |entries|
  {
    if entries == [] then Ok([])
    else
      var before := DirFiles(dir, entries[..|entries| - 1]);
      if before.Err? then before
      else match entries[|entries| - 1]
        case BrokenEntry => Err(FileError(EntryUnreadable(dir)))
        case NonUnicodeEntry => before
        case Entry(path, isDir) => if isDir then before else Ok(before.value + [path])
  }

  /** The input files: each file argument itself, or the files of each directory argument, in order. */
  function InputFiles(files: seq<string>, dirs: Dirs): (r: Result<seq<string>, AppError>)
    ensures r.Err? ==> r.error.FileError?
    decreases |files|
  {
    if files == [] then Ok([])
    else
      var before := InputFiles(files[..|files| - 1], dirs);
      var f := files[|files| - 1];
      if before.Err? then before
      else if f !in dirs then Ok(before.value + [f])
      else match dirs[f]
        case Unreadable => Err(FileError(DirectoryUnreadable(f)))
        case Listed(entries) =>
          var found := DirFiles(f, entries);
          if found.Err? then Err(found.error) else Ok(before.value + found.value)
  }

  /** The paths the reply may write: every input file and the output file. */
  function AllowedSet(inputs: seq<string>, output: Option<string>): set<string> {
    (set x | x in inputs) + (if output.Some? then {output.value} else {})
  }

  /** The two collections built by the allow-list loop, or the error that stopped it. */
  function AllowList(files: seq<string>, output: Option<string>, dirs: Dirs)
    : Result<(set<string>, seq<string>), AppError>
  {
    match InputFiles(files, dirs)
    case Err(e) => Err(e)
    case Ok(inputs) => Ok((AllowedSet(inputs, output), inputs))
  }

  /** The loop over a directory's entries, adding each file to both collections. */
  method CollectDir(dir: string, entries: seq<DirEntry>, allowed0: set<string>, inputs0: seq<string>)
    returns (r: Result<(set<string>, seq<string>), AppError>)
    ensures match DirFiles(dir, entries)
            case Err(e) => r == Err(e)
            case Ok(found) => r == Ok((allowed0 + (set x | x in found), inputs0 + found))
  {
    var allowed, inputs := allowed0, inputs0;
    ghost var found: seq<string> := [];
    for j := 0 to |entries|
      invariant DirFiles(dir, entries[..j]) == Ok(found)
      invariant allowed == allowed0 + (set x | x in found)
      invariant inputs == inputs0 + found
    {
      assert entries[..j + 1][..j] == entries[..j];
      match entries[j]
      case BrokenEntry =>
        DirFailureIsFinal(dir, entries, j + 1);
        return Err(FileError(EntryUnreadable(dir)));
      case NonUnicodeEntry =>
      case Entry(path, isDir) =>
        if !isDir {
          allowed := allowed + {path};
          inputs := inputs + [path];
          found := found + [path];
        }
    }
    assert entries[..|entries|] == entries;
    return Ok((allowed, inputs));
  }

  lemma {:induction false} DirFailureIsFinal(dir: string, entries: seq<DirEntry>, j: nat)
    requires j <= |entries| && DirFiles(dir, entries[..j]).Err?
    ensures DirFiles(dir, entries) == DirFiles(dir, entries[..j])
    decreases |entries| - j
  {
    if j < |entries| {
      assert entries[..j + 1][..j] == entries[..j];
      DirFailureIsFinal(dir, entries, j + 1);
    } else {
      assert entries[..j] == entries;
    }
  }

  lemma {:induction false} InputFailureIsFinal(files: seq<string>, dirs: Dirs, i: nat)
    requires i <= |files| && InputFiles(files[..i], dirs).Err?
    ensures InputFiles(files, dirs) == InputFiles(files[..i], dirs)
    decreases |files| - i
  {
    if i < |files| {
      assert files[..i + 1][..i] == files[..i];
      InputFailureIsFinal(files, dirs, i + 1);
    } else {
      assert files[..i] == files;
    }
  }

  /**
   * The allow-list loop of `run`: directory arguments contribute their files,
   * other arguments themselves; the output file is allowed but not sent.
   */
  method BuildAllowList(files: seq<string>, output: Option<string>, dirs: Dirs)
    returns (r: Result<(set<string>, seq<string>), AppError>)
    ensures r == AllowList(files, output, dirs)
  {
    var allowed: set<string> := {};
    var inputs: seq<string> := [];
    for i := 0 to |files|
      invariant InputFiles(files[..i], dirs) == Ok(inputs)
      invariant allowed == set x | x in inputs
    {
      var f := files[i];
      assert files[..i + 1][..i] == files[..i];
      if f in dirs {
        match dirs[f]
        case Unreadable =>
          InputFailureIsFinal(files, dirs, i + 1);
          return Err(FileError(DirectoryUnreadable(f)));
        case Listed(entries) =>
          var step := CollectDir(f, entries, allowed, inputs);
          if step.Err? {
            InputFailureIsFinal(files, dirs, i + 1);
            return Err(step.error);
          }
          allowed, inputs := step.value.0, step.value.1;
      } else {
        allowed := allowed + {f};
        inputs := inputs + [f];
      }
    }
    assert files[..|files|] == files;
    if output.Some? {
      allowed := allowed + {output.value};
    }
    assert allowed == AllowedSet(inputs, output);
    return Ok((allowed, inputs));
  }

  /** A path is an input file exactly when it is a file argument, or a file listed in a directory argument. */
  predicate Contributed(x: string, files: seq<string>, dirs: Dirs) {
    exists i :: 0 <= i < |files| && Contributes(files[i], x, dirs)
  }

  predicate Contributes(f: string, x: string, dirs: Dirs) {
    if f !in dirs then x == f
    else dirs[f].Listed? && Entry(x, false) in dirs[f].entries
  }

  /** A directory's files are exactly its non-directory entries. */
  lemma {:induction false} DirFilesMembers(dir: string, entries: seq<DirEntry>)
    requires DirFiles(dir, entries).Ok?
    ensures forall x :: x in DirFiles(dir, entries).value <==> Entry(x, false) in entries
    decreases |entries|
  {
    if entries != [] {
      var front := entries[..|entries| - 1];
      DirFilesMembers(dir, front);
      assert entries == front + [entries[|entries| - 1]];
    }
  }

  /** The input files are exactly what the arguments contribute. */
  lemma {:induction false} InputFilesMembers(files: seq<string>, dirs: Dirs)
    requires InputFiles(files, dirs).Ok?
    ensures forall x :: x in InputFiles(files, dirs).value <==> Contributed(x, files, dirs)
    decreases |files|
  {
    if files != [] {
      var n := |files|;
      var front := files[..n - 1];
      var f := files[n - 1];
      InputFilesMembers(front, dirs);
      if f in dirs {
        DirFilesMembers(f, dirs[f].entries);
      }
      forall x ensures x in InputFiles(files, dirs).value <==> Contributed(x, files, dirs) {
        if Contributed(x, files, dirs) {
          var i :| 0 <= i < n && Contributes(files[i], x, dirs);
          if i < n - 1 {
            assert front[i] == files[i];
          }
        }
        if Contributed(x, front, dirs) {
          var i :| 0 <= i < n - 1 && Contributes(front[i], x, dirs);
          assert files[i] == front[i];
        }
      }
    }
  }

  /**
   * What the allow-list loop builds: the allowed set holds exactly the input
   * files and the output file, and the input files are exactly the file
   * arguments and the files listed in directory arguments; the output file
   * is an input only when it is also one of those.
   */
  lemma AllowListSpec(files: seq<string>, output: Option<string>, dirs: Dirs)
    requires AllowList(files, output, dirs).Ok?
    ensures var (allowed, inputs) := AllowList(files, output, dirs).value;
            (forall x :: x in inputs <==> Contributed(x, files, dirs))
            && (forall x :: x in allowed <==> Contributed(x, files, dirs) || (output.Some? && x == output.value))
  {
    InputFilesMembers(files, dirs);
  }

  /** `into_iter().collect()` on the allowed set: every member once, in an order the model leaves open. */
  method Enumerate(s: set<string>) returns (v: seq<string>)
    ensures forall x :: x in v <==> x in s
    ensures forall i, j :: 0 <= i < j < |v| ==> v[i] != v[j]
  {
    v := [];
    var rest := s;
    while rest != {}
      invariant rest + (set x | x in v) == s
      invariant forall x :: x in v ==> x !in rest
      invariant forall i, j :: 0 <= i < j < |v| ==> v[i] != v[j]
      decreases rest
    {
      var x :| x in rest;
      v := v + [x];
      rest := rest - {x};
    }
  }

  // ------------------------------------------------------------- key and limits

  /** The configured key, else `OPENROUTER_API_KEY` from the environment; without either the run stops. */
  function ResolveApiKey(configured: Option<string>, env: Env): (r: Result<string, AppError>)
    ensures r.Err? <==> configured.None? && "OPENROUTER_API_KEY" !in env
    ensures r.Err? ==> r.error == ApiKeyMissing
    ensures configured.Some? ==> r == Ok(configured.value)
    ensures configured.None? && "OPENROUTER_API_KEY" in env ==> r == Ok(env["OPENROUTER_API_KEY"])
  {
    match (match configured case Some(k) => Some(k)
           case None => if "OPENROUTER_API_KEY" in env then Some(env["OPENROUTER_API_KEY"]) else None)
    case Some(k) => Ok(k)
    case None => Err(ApiKeyMissing)
  }

  /** The completion limit a run uses: the configured one, else 16384. */
  function EffectiveMaxTokens(configured: Option<nat>): (n: nat)
    ensures configured.Some? ==> n == configured.value
    ensures configured.None? ==> n == DefaultMaxTokens
  {
    configured.GetOr(DefaultMaxTokens)
  }

  /** `estimate_token_count`: a quarter of the character count, rounded down. */
  function EstimateTokenCount(text: string): (n: nat)
    ensures 4 * n <= |text| < 4 * n + 4
  {
    |text| / 4
  }

  /** The token counts the reply's `usage` object reports, each only when present as an unsigned integer. */
  datatype Usage = Usage(promptTokens: Option<nat>, completionTokens: Option<nat>)

  /**
   * The warning after a reply: reported only when both counts are present,
   * and then when the completion used up the limit the request was sent with.
   */
  function TruncationWarning(usage: Usage, maxTokens: Option<nat>): bool {
    match (usage.promptTokens, usage.completionTokens)
    case (Some(_), Some(completion)) => completion >= EffectiveMaxTokens(maxTokens)
    case _ => false
  }

  // ------------------------------------------------------------ request envelope

  /** A JSON value, as far as the request needs one. */
  datatype Json =
    | JString(str: string)
    | JNumber(num: nat)
    | JArray(items: seq<Json>)
    | JObject(fields: map<string, Json>)

  function Message(role: string, content: string): Json {
    JObject(map["role" := JString(role), "content" := JString(content)])
  }

  /** The `provider` object: `only` when a provider is pinned, `data_collection` on the default endpoint. */
  function ProviderObject(provider: Option<string>, isDefaultApiUrl: bool): Option<map<string, Json>> {
    var pinned := match provider
      case Some(name) => Some(map["only" := JArray([JString(name)])])
      case None => None;
    if isDefaultApiUrl then Some(pinned.GetOr(map[])["data_collection" := JString("deny")]) else pinned
  }

  function RequestBody(model: string, provider: Option<string>, systemPrompt: string, userPrompt: string,
                       maxTokens: nat, isDefaultApiUrl: bool): Json
  {
    var body := map[
      "model" := JString(model),
      "max_tokens" := JNumber(maxTokens),
      "messages" := JArray([Message("system", systemPrompt), Message("user", userPrompt)])];
    match ProviderObject(provider, isDefaultApiUrl)
    case Some(p) => JObject(body["provider" := JObject(p)])
    case None => JObject(body)
  }

  /** `build_request`: the body map and the provider map filled in step by step. */
  method BuildRequest(model: string, provider: Option<string>, systemPrompt: string, userPrompt: string,
                      maxTokens: nat, isDefaultApiUrl: bool) returns (body: Json)
    ensures body == RequestBody(model, provider, systemPrompt, userPrompt, maxTokens, isDefaultApiUrl)
  {
    var fields: map<string, Json> := map[];
    fields := fields["model" := JString(model)];
    fields := fields["max_tokens" := JNumber(maxTokens)];
    fields := fields["messages" := JArray([Message("system", systemPrompt), Message("user", userPrompt)])];
    var providerObj: Option<map<string, Json>> := None;
    if provider.Some? {
      var p: map<string, Json> := map[];
      p := p["only" := JArray([JString(provider.value)])];
      providerObj := Some(p);
    }
    if isDefaultApiUrl {
      if providerObj.None? {
        providerObj := Some(map[]);
      }
      var p := providerObj.value;
      p := p["data_collection" := JString("deny")];
      providerObj := Some(p);
    }
    if providerObj.Some? {
      fields := fields["provider" := JObject(providerObj.value)];
    }
    body := JObject(fields);
  }

  /**
   * The request always names the model, the completion limit and the two
   * messages, system first; it has a `provider` object exactly when a
   * provider is pinned or the endpoint is the default one, which pins with
   * `only` exactly when a provider is given and denies data collection
   * exactly on the default endpoint.
   */
  lemma RequestBodyShape(model: string, provider: Option<string>, systemPrompt: string, userPrompt: string,
                         maxTokens: nat, isDefaultApiUrl: bool)
    ensures var body := RequestBody(model, provider, systemPrompt, userPrompt, maxTokens, isDefaultApiUrl);
            body.JObject?
            && body.fields.Keys == {"model", "max_tokens", "messages"}
                                   + (if provider.Some? || isDefaultApiUrl then {"provider"} else {})
            && body.fields["model"] == JString(model)
            && body.fields["max_tokens"] == JNumber(maxTokens)
            && body.fields["messages"] == JArray([Message("system", systemPrompt), Message("user", userPrompt)])
            && (provider.Some? || isDefaultApiUrl ==>
                  body.fields["provider"].JObject?
                  && ("only" in body.fields["provider"].fields <==> provider.Some?)
                  && (provider.Some? ==> body.fields["provider"].fields["only"] == JArray([JString(provider.value)]))
                  && ("data_collection" in body.fields["provider"].fields <==> isDefaultApiUrl)
                  && (isDefaultApiUrl ==> body.fields["provider"].fields["data_collection"] == JString("deny"))
                  && body.fields["provider"].fields.Keys <= {"only", "data_collection"})
  {
    var p := ProviderObject(provider, isDefaultApiUrl);
    assert p.Some? <==> provider.Some? || isDefaultApiUrl;
  }

  /**
   * The truncation warning uses the same limit the request was sent with:
   * it fires exactly when the reply reports both token counts and the
   * completion reached the request's `max_tokens`.
   */
  lemma WarningMatchesRequest(model: string, provider: Option<string>, systemPrompt: string, userPrompt: string,
                              configured: Option<nat>, isDefaultApiUrl: bool, usage: Usage)
    ensures var body := RequestBody(model, provider, systemPrompt, userPrompt, EffectiveMaxTokens(configured), isDefaultApiUrl);
            body.JObject? && "max_tokens" in body.fields && body.fields["max_tokens"].JNumber?
            && (TruncationWarning(usage, configured) <==>
                  usage.promptTokens.Some? && usage.completionTokens.Some?
                  && usage.completionTokens.value >= body.fields["max_tokens"].num)
  {
    RequestBodyShape(model, provider, systemPrompt, userPrompt, EffectiveMaxTokens(configured), isDefaultApiUrl);
  }

  // ---------------------------------------------------------------- preparation

  /** Everything the request needs: where it goes, with what key, what it says, and what the reply may write. */
  datatype Prepared = Prepared(apiKey: string, apiUrl: string, body: Json, allowedFiles: seq<string>)

  /**
   * The first half of `run`, up to the request: the allow-list, then the API
   * key, then the prompts and the envelope. Input file contents are given as
   * a map from path to text; a path missing from it cannot be read.
   */
  method Prepare(args: Cli, config: Config, env: Env, dirs: Dirs, contents: map<string, string>)
    returns (r: Result<Prepared, AppError>)
    ensures Prepares(args, config, env, dirs, contents, Intro, Guidance, FormatExample, r)
  {
    r := PrepareOf(args, config, env, dirs, contents, Intro, Guidance, FormatExample);
  }

  /**
   * What preparation yields: an allow-list failure first, then a missing key,
   * then an unreadable input; otherwise the request, whose system prompt
   * lists the allowed set in some order.
   */
  ghost predicate Prepares(args: Cli, config: Config, env: Env, dirs: Dirs, contents: map<string, string>,
                     intro: string, guidance: string, example: string, r: Result<Prepared, AppError>)
  {
    var lists := AllowList(args.files, args.output, dirs);
    var mc := GetModelConfig(args, config, env);
    var key := ResolveApiKey(mc.apiKey, env);
    if lists.Err? then r == Err(lists.error)
    else if key.Err? then r == Err(ApiKeyMissing)
    else
      var (allowed, inputs) := lists.value;
      var user := UserPrompt(args.instruction, inputs, args.output, contents);
      if user.Err? then r == Err(InputUnreadable(user.error.path))
      else
        r.Ok?
        && (forall x :: x in r.value.allowedFiles <==> x in allowed)
        && (forall i, j :: 0 <= i < j < |r.value.allowedFiles| ==> r.value.allowedFiles[i] != r.value.allowedFiles[j])
        && r.value.apiKey == key.value
        && r.value.apiUrl == mc.apiUrl.GetOr(OpenRouterUrl)
        && r.value.body == RequestBody(mc.model, mc.provider,
                                       SystemPromptOf(intro, guidance, example, r.value.allowedFiles, config.rules.GetOr([])),
                                       user.value, EffectiveMaxTokens(mc.maxTokens), mc.apiUrl.None?)
  }

  /** The steps of preparation, around any fixed prose of the system prompt. */
  method PrepareOf(args: Cli, config: Config, env: Env, dirs: Dirs, contents: map<string, string>,
                   intro: string, guidance: string, example: string)
    returns (r: Result<Prepared, AppError>)
    ensures Prepares(args, config, env, dirs, contents, intro, guidance, example, r)
  {
    var rules := config.rules.GetOr([]);
    var mc := GetModelConfig(args, config, env);
    var lists := BuildAllowList(args.files, args.output, dirs);
    if lists.Err? {
      return Err(lists.error);
    }
    var (allowedSet, inputs) := lists.value;
    var allowedFiles := Enumerate(allowedSet);
    var key := ResolveApiKey(mc.apiKey, env);
    if key.Err? {
      return Err(key.error);
    }
    var systemPrompt := BuildSystemPromptOf(intro, guidance, example, allowedFiles, rules);
    var userPrompt := BuildUserPrompt(args.instruction, inputs, args.output, contents);
    if userPrompt.Err? {
      return Err(InputUnreadable(userPrompt.error.path));
    }
    var body := BuildRequest(mc.model, mc.provider, systemPrompt, userPrompt.value,
                             EffectiveMaxTokens(mc.maxTokens), mc.apiUrl.None?);
    return Ok(Prepared(key.value, mc.apiUrl.GetOr(OpenRouterUrl), body, allowedFiles));
  }
}
