# llmpal response protocol, in Dafny

llmpal is a command-line tool. It sends a user's instruction and a set of files to a
chat-completion API. It then writes back the files that the model's reply rewrites. This
project models the deterministic part around that call and proves properties about it:

- **Reply parser** (`parser.dfy`). `parse_llm_response` is a single pass over the reply's
  lines. It recognises think blocks, the explain section and file sections, and collects
  three things: the explanation, the ordered (path, content) entries and the trailing text.
  `ParseResponse` is the loop itself, with its body `ScanLine`. It is proved to compute
  `Parse`, a functional scan (`Step`, `Feed`, `Finish`) over classified lines. The lemmas
  state what each kind of section does to the scan.
- **Text primitives** (`text.dfy`). These are the parts of Rust's `str` API the parser relies
  on: `starts_with`, `ends_with`, `trim` (Unicode White_Space), `lines()` (a "\r\n" ending
  counts as one line ending, and the final line ending is optional), `split('\n')` and
  `join("\n")`.
- **Prompt builders** (`prompts.dfy`). `build_system_prompt` and `build_user_prompt` are
  loops that append to a string. Each is proved equal to a function that specifies it. The
  input file contents are given as a map.
- **Round trips** (`protocol.dfy`). The user prompt wraps each file in the same markers the
  parser reads. A reply in the format the system prompt asks for parses back to exactly its
  explanation and its entries. This holds when each path is non-empty and on one line, and
  when no explanation or content has a `\r` or a line the parser would take as a marker
  (`SectionPath`, `Explainable` and `Carried` state these conditions).
- **Model selection** (`config.dfy`). This covers `get_selected_model_code`,
  `get_model_config` and `resolve_env_token`, with the environment given as a map.
- **Preparing a request** (`app.dfy`). This covers:
  - the allow-list, built from file arguments, directory listings and the output path;
  - the API key fallback;
  - the JSON request envelope of `build_request`;
  - `estimate_token_count`;
  - the truncation warning.
- **Delivering a reply** (`deliver.dfy`). This is the guard loop, the printed explanation
  and the write loop of `run`, over a `Disk` object whose file map the writes update. The
  lemmas state the safety property: a reply changes no file outside the allow-list apart
  from the dump file. They also cover last-write-wins, a failed write, and the end-to-end
  case from the integration test.

## Model

| member | source | states |
|---|---|---|
| Text.TrimStartShape | src/llm.rs:100 | `trim_start` keeps a suffix, drops only whitespace, and stops at the first non-whitespace character |
| Text.TrimEndShape | src/llm.rs:100 | `trim_end` keeps a prefix, drops only whitespace, and stops at the last non-whitespace character |
| Text.TrimUnchanged | src/llm.rs:100 | a line with no whitespace at either end is its own trim |
| Text.JoinSplit | src/llm.rs:151 | `join("\n")` of the pieces of a `split('\n')` gives back the text |
| Text.LinesAppend | src/llm.rs:99 | `lines()` distributes over a concatenation whose first part ends a line |
| Text.LinesOfText | src/llm.rs:99 | a text without carriage returns, followed by '\n', contributes its pieces as lines |
| Text.FramedText | src/llm.rs:99 | a text between an opening and a closing line reads back as those lines around its pieces |
| Text.FinalLineEnding | src/llm.rs:99 | the last line needs no line ending: `lines()` reads the same with or without it |
| Parser.ParseResponse | src/llm.rs:87-152 | the loop over `lines()` computes `Parse` of the classified lines: the same explanation, entries and trailing text, or the same error |
| Parser.ScanLine | src/llm.rs:99-145 | one pass of the loop body is one `Step`: think markers first (trimmed, prefix test), then explain markers (trimmed, equality), then file open and close (untrimmed, prefix and suffix) |
| Parser.ScanStops | src/llm.rs:128 | a failure on one line is the outcome of the whole scan |
| Parser.FeedAppend | src/llm.rs:99-145 | scanning a concatenation is scanning its parts one after the other |
| Parser.FailureIsFinal | src/llm.rs:128 | once a step fails, no later line changes the outcome |
| Parser.EmptySliceLineOnly | src/llm.rs:126-128 | the open-line slice `[4..len-14]` is out of order for exactly one line, `=== === START ===`; that line is an error, not a silent result |
| Parser.ThinkCloseRecognised | src/llm.rs:102-108 | a line whose trim starts with `</think>` always closes a think block |
| Parser.ThinkAbsorbs | src/llm.rs:110-112 | inside a think block every line except a think close is dropped |
| Parser.ThinkBlockInvisible | src/llm.rs:102-112 | a think block leaves the scan exactly as it found it |
| Parser.ThinkBlockErasable | src/llm.rs:102-112 | deleting a think block from a reply that is not already inside one does not change the parse |
| Parser.CommentCollects | src/llm.rs:122-125 | inside an explain block every line, including file markers, is kept untrimmed and in order |
| Parser.ExplainBlock | src/llm.rs:114-125 | an explain block appends exactly its inner lines to the explanation; the marker lines are excluded |
| Parser.OpenLineShape | src/llm.rs:126-131 | `=== p === START ===` is classified as an open line and by no earlier test; its path slice is `p` verbatim |
| Parser.CloseLineShape | src/llm.rs:133-138 | `=== p === END ===` is classified as a close line, whatever `p` is, and by no earlier test |
| Parser.OpenDiscardsBuffer | src/llm.rs:126-131 | an open line starts a new section and clears any unfinished buffer |
| Parser.CloseIgnoresPath | src/llm.rs:133-138 | a close line emits the last opened section, or nothing when its path is empty; it never resets that path, so a second close re-emits it |
| Parser.FileCollects | src/llm.rs:140-142 | inside a file section every content line is buffered untrimmed and in order |
| Parser.FileBlock | src/llm.rs:126-142 | an open line, content lines and a close line emit one entry: the path and the content lines joined with "\n" |
| Parser.TrailingCollects | src/llm.rs:143-144 | in the normal state, content lines go to the trailing text in order and touch nothing else |
| Parser.OpenStaysOpen | src/llm.rs:99-145 | only a close line ends a file section: inside one, lines with no close line among them leave it open or fail, and cannot fail when there is no open line among them either |
| Parser.UnclosedSectionFails | src/llm.rs:147-149 | a reply that opens a file section and never closes it fails as a whole, whatever think blocks, explain blocks or further open lines follow; with no further open line, the error is the unexpected end |
| Prompts.BuildSystemPrompt | src/llm.rs:1-48 | the pushes build the system prompt: the introduction, one ` <file>` line per allowed file in order, the guidance, the format example, then the rules block |
| Prompts.PushEach | src/llm.rs:12-14 | the loop appends one listed line per item, in order |
| Prompts.EachLineLines | src/llm.rs:12-14 | read back with `lines()`, the listing gives exactly each item after its prefix, in order |
| Prompts.RulesBlockIff | src/llm.rs:39-45 | the prompt ends with the rules block's closing marker exactly when there are rules |
| Prompts.RulesBlockLines | src/llm.rs:39-45 | the rules block is the start marker, each rule on its own line in order, then the end marker |
| Prompts.LastFileMeetsGuidance | src/llm.rs:12-16 | the last allowed file's line is followed directly by the guidance |
| Prompts.LastFileMeetsOpening | src/llm.rs:12-17 | for any prose, the prompt contains the last allowed file, a line ending and the guidance's opening words |
| Prompts.SystemPromptWithFile | src/llm.rs:170-175 | the system prompt for the one file `file1.rs` and no rules contains "file1.rs", a line ending, then "When the task requires creating files" |
| Prompts.BuildUserPrompt | src/llm.rs:50-85 | the pushes build the header and then one section per input file other than the output; the first unreadable file is an error |
| Prompts.InputsSpec | src/llm.rs:61-76 | the prompt fails exactly when some input other than the output cannot be read, and names the first such input; otherwise every section is a readable input other than the output, with its contents |
| Prompts.InputsComplete | src/llm.rs:61-81 | once the prompt can be built, every input file other than the output is among the sections sent, with its contents |
| Prompts.OutputNeverSent | src/llm.rs:62-66 | the output file is never among the sections sent |
| Prompts.EmptyFilesPrompt | src/llm.rs:55-59 | without input files, the prompt is the instruction between the USER INSTRUCTIONS markers, followed by the "# User input files:" heading |
| Protocol.SectionRoundTrip | src/llm.rs:77-81 | one file section of the user prompt parses back to its (path, content) entry, for a non-empty one-line path and content with no `\r` and no marker line |
| Protocol.SectionsRoundTrip | src/llm.rs:61-81 | all the file sections of a user prompt parse back to their entries, in order |
| Protocol.SectionsFeed | src/llm.rs:126-142 | well-formed sections emit exactly their entries, in order, and leave the explanation and the trailing text alone |
| Protocol.ExplainFeed | src/llm.rs:114-125 | an explain section from the initial state records exactly the explanation's lines |
| Protocol.ReplyRoundTrip | src/llm.rs:87-152 | a reply in the format the system prompt asks for parses back to that explanation, those entries in order, and no trailing text |
| Protocol.OneLineCarried | src/llm.rs:99-145 | a single line that does not start with '<', '=' or whitespace, and does not end in whitespace, passes through unchanged as content and as explanation |
| Config.SelectedModelCode | src/config.rs:96-104 | the code is the command line's model if given, else the first configured model's code, else the default model |
| Config.FindModel | src/config.rs:119-121 | `find` returns the first model with that code, and nothing exactly when no model has it |
| Config.ResolveEnvToken | src/config.rs:106-113 | a `$NAME` token becomes the value of `NAME` when it is set; any other token stays unchanged |
| Config.GetModelConfig | src/config.rs:115-144 | the code is always the selected one; with no match, model and costs are the defaults and the other settings are absent; with a match, its settings are copied and its key is resolved against the environment |
| Config.FirstMatchWins | src/config.rs:119-142 | the settings come from the first configured model with the selected code |
| Config.DefaultModelConfig | src/config.rs:186-197 | with no choice and no configured models, every setting is a default |
| Config.ModelConfigResolution | src/config.rs:200-225 | a chosen, configured model supplies its settings; its `$TOKEN` key stays as written while `TOKEN` is unset |
| Config.FallbackToFirstModel | src/config.rs:228-251 | with no choice, the first configured model is used |
| Config.SpecifiedModelNotInConfig | src/config.rs:254-266 | a chosen model that is not configured keeps its code and gets the defaults |
| Config.ResolveEnvTokenCases | src/config.rs:273-292 | a set variable replaces its token; an unset variable and a plain token are kept |
| App.BuildAllowList | src/app.rs:38-66 | the loop builds the allowed set and the input list that `AllowList` specifies, or stops with the same file error |
| App.CollectDir | src/app.rs:42-57 | the loop over a directory adds each non-directory entry with a Unicode path to both collections, and stops on an unreadable entry |
| App.AllowListSpec | src/app.rs:38-66 | the input files are exactly the non-directory file arguments and the non-directory entries of directory arguments; the allowed set is exactly those plus the output path |
| App.InputFilesMembers | src/app.rs:38-62 | a path is an input file exactly when some argument contributes it |
| App.Enumerate | src/app.rs:67 | collecting the set gives each member exactly once, in an order left open |
| App.ResolveApiKey | src/app.rs:69-72 | the key is the configured one, else `OPENROUTER_API_KEY`, and is missing exactly when neither is set |
| App.EstimateTokenCount | src/app.rs:337-339 | the estimate is the character count divided by four, rounded down |
| App.BuildRequest | src/app.rs:272-335 | the insertions into the body and provider maps build `RequestBody` |
| App.RequestBodyShape | src/app.rs:282-331 | the body always has `model`, `max_tokens` and `messages` = [system, user]; `provider` is present exactly when a provider is pinned or the URL is the default; `only` = [name] exactly when pinned; `data_collection` = "deny" exactly on the default URL; no other keys |
| App.WarningMatchesRequest | src/app.rs:194-229 | the truncation warning fires exactly when the reply reports both the prompt and the completion token counts and the completion count reaches the `max_tokens` the request was sent with (the configured value, else 16384) |
| App.Prepare | src/app.rs:32-86 | a file error from the allow-list comes first, then a missing key, then an unreadable input; otherwise the key, the URL (the configured one, else OpenRouter's) and a body with both prompts over an enumeration of the allowed set |
| Deliver.Disk.Write | src/app.rs:187-191 | a write fails exactly on a path that cannot be written; a successful one replaces that file's content; a failed one leaves the file as it was when it cannot be created, or else holds the part of the content written before the failure; nothing else changes |
| Deliver.Deliver | src/app.rs:164-191 | the guard loop, the printed explanation and the write loop produce the outcome, disk and output that `Delivered` specifies |
| Deliver.HandleReply | src/app.rs:160-191 | a parse error changes nothing; otherwise the parsed reply is delivered |
| Deliver.FirstDisallowed | src/app.rs:164-165 | the first entry whose path is not in the allowed list, or none exactly when every path is allowed |
| Deliver.FirstUnwritable | src/app.rs:187-191 | the first entry whose write fails, or none exactly when every write succeeds |
| Deliver.LastContent | src/app.rs:187-191 | the content of the last entry for a path, or none exactly when no entry names it |
| Deliver.WrittenLast | src/app.rs:187-191 | writing in order leaves each named path with its last entry's content, so a later duplicate overwrites an earlier one; every other path is unchanged |
| Deliver.NoWriteOutsideAllowList | src/app.rs:164-191 | a path that is neither allowed nor the dump file keeps its content, whatever the reply |
| Deliver.RunWritesOnlyArguments | src/app.rs:38-191 | with the list that preparation builds from the arguments, a path that is no file argument, no file of a directory argument, not the output and not the dump file keeps its content, whatever the reply |
| Deliver.DisallowedWritesNothing | src/app.rs:164-177 | a reply naming a disallowed path writes none of its files and prints nothing; the reply is dumped, and the error names the first disallowed path in reply order |
| Deliver.AllowedRepliesAreWritten | src/app.rs:183-191 | when every path is allowed and writable, the run succeeds, prints a non-empty explanation once, changes the disk only by writing the entries in order, and leaves each path with its last entry's content |
| Deliver.WriteFailureStops | src/app.rs:187-191 | a failed write stops with an error naming that path; earlier entries for other paths stay written, and paths named only later are untouched; the failing path keeps its earlier state when its file cannot be created, and otherwise holds a prefix of its content of the length written |
| Deliver.ReplyRewritesInputFile | tests/llmpal_test.rs:14-74 | the test's reply, which has no final line ending, prints "Test explanation" and leaves the input file as exactly "modified content" |
| Deliver.OneFileReply | tests/llmpal_test.rs:41-74 | a reply with one explanation and one section for the allowed input file replaces that file's content and prints the explanation |

## Left out

- The HTTP request (`send_api_request`), reading `choices[0].message.content` from the response, and the trace and verbose printing. These are network I/O and JSON navigation. The reply text is a parameter of `HandleReply`.
- Cost and tokens-per-second arithmetic, and the formatted log lines, because they are floating-point numerics and formatting. Costs are carried through as `real` values and never computed with.
- The timestamp in the dump file name depends on the clock. It is the parameter `dumpName`. A failure to write the dump only prints a message, so it is modelled as not changing the outcome.
- The spinner threads and their flags, because they are concurrency and terminal output.
- Reading the configuration file, the HOME lookup, command-line parsing and `write_diagnostic_log`, because they are file I/O and argument parsing. The configuration and the command line are given as values.
- Reading input files in `build_user_prompt` is file I/O. Contents come as a map, and a path missing from it cannot be read. The source then prints a message and exits the process. The model returns `ReadFailed(path)`, and `Prepare` turns that into the error `InputUnreadable(path)` that ends the run.
- `build_user_prompt` sends empty contents when compiled for the crate's own unit tests. That build mode is not modelled.
- The text of error messages, because it is string formatting. Errors are constructors that carry the path or directory they name.
- The serialised text of the request. The envelope is verified as a JSON value. The source's serialisation of string keys cannot fail, so `BuildRequest` has no error path.
- The filesystem is given as data: a map from directory paths to listings, a map of file contents, a set of paths that cannot be written, and for some of those paths how many characters a write gets through before it fails. A path is its string, as in the source's allow-list test, so two spellings of one file (`a.txt` and `./a.txt`) are two files in the model. Symbolic links and paths that change while the run reads them are not modelled.
- App.ResolveApiKey: an environment variable whose value is not valid Unicode counts as unset in the source. The model's environment holds only string values.
- App.Enumerate: the iteration order of the `HashSet` is not specified. The model picks each element nondeterministically, so the order of the allowed files in the system prompt is left open.
- Prompts.BuildSystemPrompt: the three fixed passages of prose are copied character for character. The source writes them with `\` line continuations, which drop the next line's leading whitespace. The lemmas that do not depend on the exact prose are stated for any prose (`SystemPromptOf`).
- Parser.ScanLine: the scan's loop variables are kept together in one `ScanState` value, not as separate mutable locals.
- The panic of the open-line slice on `=== === START ===` is modelled as the error `SliceOutOfOrder(line)`, which ends the parse.
- Deliver.Disk.Write: a write that breaks off keeps a whole number of characters of the content. The source writes bytes, so it can stop inside a character's UTF-8 encoding, and the model's strings cannot hold that.
- App.WarningMatchesRequest: the warning is printed to standard error after the write loop has succeeded. The model states when the warning fires, but does not tie it to a successful `HandleReply`, because standard error is not modelled.
- Usize and u64 widths are not modelled. Token counts are unbounded naturals. A 64-bit `usize` converts to `u64` without loss, so the comparison is the same.
