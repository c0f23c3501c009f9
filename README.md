# crab-desktop core, modelled in Dafny

This project models the logic of the crab-desktop chat client that sits
between the language model and the user's files:

- **Stream client.** The streaming completion client reads an
  OpenAI-compatible `text/event-stream` response. This is a subset of
  Server-Sent Events, section 9.2 of the WHATWG HTML Living Standard.
  - It cuts the decoded text into lines, carries the incomplete last line
    over in a buffer, and trims each line.
  - It handles `data: [DONE]`, and hands each `data: ` payload to
    `JSON.parse`.
  - It sends text deltas to `onMessage`.
  - It merges indexed tool-call fragments into a map of accumulators. The
    map is finalized into parsed calls when the stream ends, when a frame
    finishes with `tool_calls`/`function_call`, or when the reader ends.
  - It turns failures into one `onError` report and stays silent on
    aborts.
  - The cancellable request wrapper keeps one abort controller.
- **Skill registry.** Built-in skills come first, followed by the skills
  installed at run time. The registry rejects a duplicate id or name and
  removes skills by id.
- **Tool executor.** It resolves a call by exact name and turns unknown
  names and handler errors into failure records.
- **Enabled-skills store.** This is a list of ids. The empty list means
  "all enabled" and the sentinel `__none__` means "none enabled".
- **Request parsers.** They recognise the fixed Chinese patterns for
  "delete the file / the folder … on the desktop" and for "generate N
  files into folder … on the desktop".
- **Bulk file generator.** It carries out a parsed "generate" request.
- **Built-in skills.** `read_file` truncates long content. `list_files`
  formats a directory listing.

Modules follow the source files:

| module | file | source |
|---|---|---|
| `Wrappers` | `wrappers.dfy` | `Option`, `Result` |
| `JsValues` | `js_values.dfy` | JSON values as handlers see them, plus JavaScript truthiness and string display |
| `Text` | `text.dfy` | `trim`, `split('\n')`, `join`, decimal printing and reading, `includes` |
| `Tools` | `tools.dfy` | the `ParsedToolCall`/`ToolResult` records (`@/lib/tools`) |
| `SkillTypes` | `skill_types.dfy` | `src/skills/types.ts` |
| `Registry` | `registry.dfy` | `src/skills/registry.ts`, as the class `SkillRegistry` |
| `ToolExecutor` | `tool_executor.dfy` | `src/lib/tool-executor.ts` |
| `EnabledSkills` | `enabled_skills.dfy` | `src/stores/skills.ts`, as the class `SkillsStore` |
| `AiStream` | `ai_stream.dfy` | `src/lib/ai-stream.ts`, as functions of the text received, with its lemmas |
| `AiStreamClient` | `ai_stream_client.dfy` | `src/lib/ai-stream.ts`, imperatively: the class `SseReader` holds `buffer` and the accumulator map, the method `FetchSSE` runs the read loop, and the class `AIRequest` holds the controller |
| `Patterns` | `patterns.dfy` | the pieces shared by the fixed request patterns |
| `DeleteIntent` | `delete_intent.dfy` | `src/lib/delete-intent.ts` |
| `GenerateFilesIntent` | `generate_files_intent.dfy` | `src/lib/generate-files-intent.ts` |
| `BuiltinSkills` | `builtin_skills.dfy` | `src/skills/builtin/read_file.ts` and `list_files.ts` |

**Parameters instead of runtime services.** `JSON.parse`, the file service
and skill handlers are function parameters. A handler returns
`Ok(result)` or `Err(message)`, where `Err` stands for a thrown error. The
network is modelled by a `FetchOutcome`: either `fetch` rejects, or it
resolves with a status, a body and the decoded chunks the reader delivers.

**The regular expressions** are written out as matchers. Each tries the
positions and alternatives in the order the JavaScript engine does:
leftmost match, greedy `[^…]+` in the delete-file pattern, lazy `[^…]+?`
followed by `文件夹` in the folder patterns, and the optional `上`/`的`
tried present first.

**More than one terminal callback.** The code does not guarantee a single
terminal callback per exchange, and the model follows the code.
- A frame with `finish_reason: "stop"` calls `onMessage('', true)` and
  leaves any fragments pending. When none are pending, the
  `data: [DONE]` after it calls `onMessage('', true)` again. See
  `AiStream.StopThenDoneReportsTwice`. When some are pending, the
  `data: [DONE]` hands them over after the end of the text was already
  reported. See `AiStream.StopLeavesFragmentsPending`.
- A `tool_calls` finish with fragments merged empties the map. The
  `data: [DONE]` after it then also calls `onMessage('', true)`. See
  `AiStream.ToolCallsThenDone`.

## Model

| member | source | states |
|---|---|---|
| AiStream.MergeChunk | src/lib/ai-stream.ts:137-150 | one fragment creates its index's accumulator on first sight, adding the index to the insertion order. It appends its argument text and overwrites id and name only with non-empty values. Every other accumulator is unchanged, and one accumulator per index is kept |
| AiStream.MergeChunksKeys | src/lib/ai-stream.ts:137-150 | after a run of fragments, the keys are the old keys plus every fragment's index, and the insertion order only grows |
| AiStream.MergeChunksArguments | src/lib/ai-stream.ts:149 | an index's arguments are the old arguments followed by that index's fragment chunks, in arrival order: arguments are only ever appended |
| AiStream.MergeChunksAppend | src/lib/ai-stream.ts:136-150 | merging two frames' fragments one after the other is merging their concatenation |
| AiStream.LastIdWins | src/lib/ai-stream.ts:147 | the id is the last non-empty id a fragment of that index carried |
| AiStream.LastNameWins | src/lib/ai-stream.ts:148 | the name is the last non-empty name a fragment of that index carried |
| AiStream.MergeChunksKeepsId | src/lib/ai-stream.ts:141-147 | fragments without an id never change the id |
| AiStream.MergeChunksKeepsName | src/lib/ai-stream.ts:142-148 | fragments without a name never change the name |
| AiStream.MergeChunksWellFormed | src/lib/ai-stream.ts:139-146 | merging keeps exactly one accumulator per index, each listed once in insertion order |
| AiStream.FinalizeAllParse | src/lib/ai-stream.ts:180-198 | when every accumulator's arguments parse (empty arguments read as `{}`), there is one call per accumulator, in insertion order, carrying its id, name and parsed arguments |
| AiStream.FinalizeNoneParse | src/lib/ai-stream.ts:185-194 | when no accumulator's arguments parse, no call is produced |
| AiStream.FinalizeDropsUnparsable | src/lib/ai-stream.ts:185-194 | an accumulator whose arguments do not parse contributes nothing: the result is the same as if it were absent |
| AiStreamClient.SseReader.FinalizeParsedToolCalls | src/lib/ai-stream.ts:180-198 | returns the finalized calls of the map as it was and leaves the map empty |
| AiStream.Terminate | src/lib/ai-stream.ts:92-100 | when fragments are pending, their finalized calls are handed over and the map ends up empty. When none are pending, `onMessage('', true)` is called |
| AiStream.FinalizeCalls | src/lib/ai-stream.ts:180-198 | at most one call per accumulator in the insertion order |
| AiStream.FinalizeInto | src/lib/ai-stream.ts:94-96 | the map ends up empty, and `onToolCalls` receives the finalized calls exactly when it was given |
| AiStream.ApplyFrame | src/lib/ai-stream.ts:124-162 | a parsed frame only adds callbacks after the earlier ones, at most two; a frame without a delta changes nothing; a delta's non-empty text reaches `onMessage(content, false)` before anything else the frame does, whatever fragments or finish reason it carries |
| AiStream.StopFrameReportsDone | src/lib/ai-stream.ts:130-161 | for every delta, `finish_reason: "stop"` gives the delta's text, then `onMessage('', true)`, and leaves the merged fragments pending |
| AiStream.FunctionCallActsAsToolCalls | src/lib/ai-stream.ts:154 | `function_call` is handled exactly as `tool_calls` |
| AiStream.ToolCallsNothingMerged | src/lib/ai-stream.ts:154-159 | a `tool_calls`/`function_call` finish with an empty map after merging gives only the delta's text: no batch, no end of text |
| AiStream.ToolCallsMergedHandsOver | src/lib/ai-stream.ts:130-159 | a `tool_calls`/`function_call` finish with a non-empty map gives the delta's text, then the finalized batch if `onToolCalls` was given, and empties the map |
| AiStream.OtherFinishOnlyMerges | src/lib/ai-stream.ts:130-162 | any other finish reason, or none, gives only the delta's text and merges the fragments |
| AiStream.StopLeavesFragmentsPending | src/lib/ai-stream.ts:109-118 | after a `stop` frame that leaves fragments pending, the `[DONE]` hands them over after `onMessage('', true)` |
| AiStream.ProcessLine | src/lib/ai-stream.ts:107-168 | one line only adds callbacks after the earlier ones, at most two |
| AiStream.FeedChunk | src/lib/ai-stream.ts:103-105 | the buffer never holds a line feed, and text without one is only buffered: no line is handled |
| AiStream.RunChunks | src/lib/ai-stream.ts:103-105 | after at least one chunk the buffer holds no line feed. Chunks that complete no line are only buffered |
| AiStream.ChunkBoundariesIrrelevant | src/lib/ai-stream.ts:103-105 | after any sequence of chunks, the buffer is the text after the last line feed of everything received. The callbacks and accumulators are those of handling the complete lines in order, however the text was cut into chunks |
| AiStream.LineFraming | src/lib/ai-stream.ts:103-105 | the handled lines, each followed by a line feed, then the buffer, rebuild exactly the text received |
| AiStream.RunChunksWellFormed | src/lib/ai-stream.ts:90-168 | the read loop keeps one accumulator per index throughout |
| AiStream.ProcessLinesOnlyAppends | src/lib/ai-stream.ts:107-168 | handling lines only ever adds callbacks after the earlier ones |
| AiStream.IgnoredLine | src/lib/ai-stream.ts:108-122 | a line that is blank after trimming, or that is neither `data: [DONE]` nor starts with `data: `, changes nothing |
| AiStream.DoneLineTerminates | src/lib/ai-stream.ts:109-119 | `data: [DONE]`, even padded with white space, does what the end of the stream does |
| AiStream.UnparsablePayloadEchoed | src/lib/ai-stream.ts:163-166 | a payload that does not parse is passed verbatim to `onMessage(payload, false)` |
| AiStream.FrameWithoutDeltaSkipped | src/lib/ai-stream.ts:125-127 | a frame without `choices[0].delta` changes nothing, even when it carries a finish reason |
| AiStream.ContentInOrder | src/lib/ai-stream.ts:129-150 | over consecutive frames whose finish reason ends nothing, with any text and fragments, every non-empty text reaches `onMessage(content, false)` in line order, and the fragments are merged as one run in line order |
| AiStream.StopThenDoneReportsTwice | src/lib/ai-stream.ts:109-118 | a `stop` frame with any delta that leaves no fragments pending, followed by `data: [DONE]`, gives the delta's text and then `onMessage('', true)` twice |
| AiStream.ToolCallsFrameHandsOver | src/lib/ai-stream.ts:136-159 | a frame of fragments with `finish_reason: "tool_calls"` merges them and hands over the finalized calls at once, emptying the map |
| AiStream.ToolCallsThenDone | src/lib/ai-stream.ts:110-118 | after a `tool_calls` finish, a later `data: [DONE]` sees an empty map and also calls `onMessage('', true)` |
| AiStream.ProcessLinesNoFailure | src/lib/ai-stream.ts:107-168 | handling lines never calls `onError` |
| AiStream.ErrorDetail | src/lib/ai-stream.ts:66-74 | the detail of a failed status is `error.message`, else `message`, else the raw body. When the body cannot be read or parsed, or is `null`, the detail is the status text, else `请求失败` |
| AiStream.HttpMessage | src/lib/ai-stream.ts:75 | the message starts with `HTTP ` and ends with the detail |
| AiStream.ErrorText | src/lib/ai-stream.ts:172 | the reported text is the error's message, else its name, and never empty |
| AiStream.Report | src/lib/ai-stream.ts:170-174 | an error is reported once through `onError` unless it is an `AbortError` or no `onError` was given |
| AiStream.StatusFallback | src/lib/ai-stream.ts:73 | the status text when it is not empty, otherwise `请求失败`. Never empty |
| AiStream.ExchangeEvents | src/lib/ai-stream.ts:36-175 | a rejected `fetch`, a failed status or a missing body gives at most one callback, an `onError`. A readable body gives the callbacks of its lines first |
| AiStream.HttpErrorReported | src/lib/ai-stream.ts:66-76 | a failed status makes exactly one callback: `onError` with `HTTP <status>: <detail>` |
| AiStream.AbortIsSilent | src/lib/ai-stream.ts:171 | an abort, whether while connecting or while reading, adds no callback after those already made |
| AiStream.FailureIsLast | src/lib/ai-stream.ts:46-174 | `onError` is called at most once per exchange, and nothing follows it |
| AiStream.CompletedStreamEndsWithTerminal | src/lib/ai-stream.ts:90-101 | a stream that ends normally ends with `onMessage('', true)` when no fragments are pending. Otherwise it ends with the finalized calls |
| AiStream.ToolDefinitionRoundTrip | src/lib/ai-stream.ts:52 | a tool definition written into the request body is read back unchanged |
| AiStream.BuildRequestBody | src/lib/ai-stream.ts:50-54 | `tools` and `tool_choice: "auto"` are added only when the tool list is non-empty. Every tool is carried in order and every other field is kept |
| AiStreamClient.SseReader.constructor | src/lib/ai-stream.ts:82-88 | the reader starts with an empty buffer, an empty map and no callbacks |
| AiStreamClient.SseReader.MergeToolCall | src/lib/ai-stream.ts:137-150 | updating the map in place is exactly merging the fragment |
| AiStreamClient.SseReader.HandleFrame | src/lib/ai-stream.ts:125-162 | handling a parsed frame in place equals `ApplyFrame`, so it inherits the per-finish-reason behaviour of `StopFrameReportsDone`, `ToolCallsNothingMerged`, `ToolCallsMergedHandsOver` and `OtherFinishOnlyMerges` |
| AiStreamClient.SseReader.HandleLine | src/lib/ai-stream.ts:107-168 | handling a line in place matches the line step of the read loop |
| AiStreamClient.SseReader.EndStream | src/lib/ai-stream.ts:92-100 | the end of the reader in place matches the end of the stream |
| AiStreamClient.SseReader.Receive | src/lib/ai-stream.ts:103-107 | receiving a chunk updates the buffer and handles the complete lines, as one step of the read loop |
| AiStreamClient.FetchSSE | src/lib/ai-stream.ts:36-175 | the callbacks the loop makes are exactly those of the exchange as the functions above define it |
| AiStreamClient.AIRequest.constructor | src/lib/ai-stream.ts:204 | a new request wrapper holds no controller |
| AiStreamClient.AIRequest.Send | src/lib/ai-stream.ts:207-211 | aborts the previous controller, if any, before installing a fresh, unaborted one. Every controller issued earlier is aborted |
| AiStreamClient.AIRequest.Cancel | src/lib/ai-stream.ts:212-215 | aborts the current controller, if any, and drops it. Every controller issued is then aborted |
| AiStreamClient.AbortController.Abort | src/lib/ai-stream.ts:207-213 | the signal is aborted afterwards |
| SkillTypes.SkillToToolDefinition | src/skills/types.ts:34-43 | the definition has type `function` and the skill's name, description and parameters |
| SkillTypes.ToolDefinitionIgnoresIdAndHandler | src/skills/types.ts:34-43 | skills that differ only in id or handler give the same definition |
| Registry.FindIndex | src/skills/registry.ts:40 | the first position whose element satisfies the test, or -1 exactly when none does |
| Registry.FindByName | src/skills/registry.ts:26 | the first skill whose name is the one asked for, or none exactly when no skill has it |
| Registry.WithoutId | src/skills/registry.ts:41 | every skill without that id is kept and no skill with it is. The list shrinks when one had it |
| Registry.GetTimeSkill | src/skills/installed/example_get_time.ts:10-12 | the example skill has id `installed/get_time` and name `get_time` |
| Registry.SkillRegistry.constructor | src/skills/registry.ts:10-17 | the installed list starts as exactly the example clock skill |
| Registry.SkillRegistry.GetAllSkills | src/skills/registry.ts:20-22 | the built-ins, then the installed skills, each in its own order |
| Registry.SkillRegistry.GetSkillByName | src/skills/registry.ts:25-27 | the first skill in that order whose name is exactly the one asked for, or none exactly when no skill has it |
| Registry.BuiltinShadowsInstalled | src/skills/registry.ts:20-27 | a built-in shadows an installed skill of the same name |
| Registry.InstalledFoundWhenNoBuiltin | src/skills/registry.ts:20-27 | when no built-in has the name, the lookup is the lookup among installed skills |
| Registry.SkillRegistry.RegisterSkill | src/skills/registry.ts:30-36 | a skill sharing an id or a name with an installed skill is ignored, otherwise it is appended. Installed ids and names stay pairwise distinct |
| Registry.SkillRegistry.UnregisterSkill | src/skills/registry.ts:39-42 | the installed list loses the skill with that id and keeps the others in order. Built-ins are untouched and ids stay distinct |
| Registry.SpliceIsFilter | src/skills/registry.ts:40-41 | with distinct ids, cutting out the first match is removing every skill with that id |
| Registry.WithoutIdAbsent | src/skills/registry.ts:41 | removing an id no installed skill has changes nothing |
| Registry.SpliceKeepsDistinct | src/skills/registry.ts:41 | cutting one skill out keeps ids and names distinct, and the removed id no longer occurs |
| ToolExecutor.ExecuteTool | src/lib/tool-executor.ts:14-43 | the record copies the call's id and name. An unknown name gives failure with `未知工具: <name>…` and no handler runs. Otherwise success is the handler's outcome: on success the result is its string, on error it is `执行失败: <message>` |
| ToolExecutor.UnknownToolMessage | src/lib/tool-executor.ts:23 | the message starts with `未知工具: ` and the unknown name |
| ToolExecutor.FailureMessage | src/lib/tool-executor.ts:40 | `执行失败: ` followed by exactly the handler's error message |
| ToolExecutor.ExecuteTools | src/lib/tool-executor.ts:48-50 | one record per call, in order, each that call's own record |
| ToolExecutor.BatchIsolation | src/lib/tool-executor.ts:48-50 | changing one call of a batch never changes another call's record |
| ToolExecutor.FailureDoesNotSpread | src/lib/tool-executor.ts:27-50 | a failing handler next to a succeeding one gives one failure and one success record |
| EnabledSkills.IsEnabledIn | src/stores/skills.ts:38-42 | false whenever `__none__` is present, true for every id on the empty list, otherwise membership |
| EnabledSkills.Remove | src/stores/skills.ts:29 | the filter keeps every other id, drops the given one and keeps ids distinct |
| EnabledSkills.SkillsStore.constructor | src/stores/skills.ts:17 | the store starts with the empty list: every skill enabled |
| EnabledSkills.SetEnabledNext | src/stores/skills.ts:19-34 | the transition adds no id but the given one and the sentinel, grows by at most one, and after enabling the id is present without the sentinel. Disabling a listed id removes it without emptying the list. Disabling anything else changes nothing |
| EnabledSkills.SkillsStore.SetEnabled | src/stores/skills.ts:19-34 | the new list is the store's transition for the given id and flag |
| EnabledSkills.SetEnabledTakesEffect | src/stores/skills.ts:19-34 | after enabling, the id is enabled. After disabling a non-empty list, it is not |
| EnabledSkills.EnableAddsId | src/stores/skills.ts:21-26 | enabling drops `__none__` and leaves the id present |
| EnabledSkills.DisableRemovesId | src/stores/skills.ts:28-30 | disabling a present id removes it and never leaves the list empty (`__none__` instead) |
| EnabledSkills.DisableNoOp | src/stores/skills.ts:22-32 | disabling under "all enabled" or "none enabled" changes nothing |
| EnabledSkills.SetEnabledIdempotent | src/stores/skills.ts:32 | asking for the state an id already has changes nothing |
| EnabledSkills.SetEnabledNoDuplicates | src/stores/skills.ts:23-30 | the transition never introduces a duplicate id |
| EnabledSkills.SetEnabledLeavesOthers | src/stores/skills.ts:19-42 | on a non-empty list, changing one id leaves every other id's enabled state as it was |
| EnabledSkills.EnablingSentinelDisablesAll | src/stores/skills.ts:21-26 | enabling the id `__none__` itself disables every skill |
| EnabledSkills.EnableUnderAllEnabledNarrows | src/stores/skills.ts:24-26 | enabling one id under "all enabled" leaves only that id enabled |
| EnabledSkills.SkillsStore.SetEnabledIds | src/stores/skills.ts:36 | the list is replaced wholesale |
| EnabledSkills.InitNext | src/stores/skills.ts:44-49 | an empty list is replaced by all the ids, and any other list is kept |
| EnabledSkills.SkillsStore.InitFromAllIds | src/stores/skills.ts:44-49 | the list becomes the given ids only when it was empty and they are not |
| EnabledSkills.SkillsStore.IsEnabled | src/stores/skills.ts:38-42 | false when the sentinel is present. Otherwise true on the empty list, else membership |
| EnabledSkills.InitKeepsEnabled | src/stores/skills.ts:44-49 | initializing never changes whether a known id is enabled |
| Patterns.DirFor | src/lib/delete-intent.ts:1-6 | the folder is Desktop, Documents or Downloads, as the spoken word maps it. 文档 and 文稿 both give Documents |
| Patterns.LazyFolderEndIsFirst | src/lib/delete-intent.ts:58 | the lazy name ends at the first position followed by white space and `文件夹`. When none is found, no position of the name run is |
| Patterns.FolderNameToEnd | src/lib/delete-intent.ts:58 | a name free of 文 that runs up to a closing `文件夹` is exactly the name the lazy pattern captures |
| DeleteIntent.LeadingPrefix | src/lib/delete-intent.ts:11 | the first of 这个, 那个, 那个叫, 名叫, 叫 the name starts with, or none. 那个叫 is never chosen, because 那个 is tried first |
| DeleteIntent.NormalizeName | src/lib/delete-intent.ts:9-13 | the result has no white space at either end. Without a leading 这个/那个/名叫/叫 it is the trimmed name. With one, it is what follows the prefix and the white space after it, trimmed |
| DeleteIntent.NormalizeStripsPrefix | src/lib/delete-intent.ts:11-12 | a name made of 这个, 那个, 名叫 or 叫, any white space and a rest normalizes to the trimmed rest |
| DeleteIntent.LongerPrefixNeverTried | src/lib/delete-intent.ts:11 | the alternative 那个叫 is dead: `那个叫x` loses only 那个 and normalizes to a name starting with 叫 |
| DeleteIntent.FirstMatch | src/lib/delete-intent.ts:29-31 | a match captures a folder word and a non-empty name of characters outside white space and ，。！？ |
| DeleteIntent.FileMatchAt | src/lib/delete-intent.ts:30 | a match at one position captures a folder word and a non-empty name of characters outside white space and ，。！？ |
| DeleteIntent.DirMatchAt | src/lib/delete-intent.ts:58 | a match at one position captures a folder word and a non-empty lazy name of characters outside white space and ，。！？ |
| DeleteIntent.PathFrom | src/lib/delete-intent.ts:34-37 | no path exactly when the normalized name is empty. Otherwise the path is the home folder, the mapped folder, a slash and the normalized name |
| DeleteIntent.ParseDeleteFileIntent | src/lib/delete-intent.ts:19-41 | a result exists exactly when there is a home folder, the trimmed message starts with a delete verb and has no `文件夹`, the file pattern matches and the normalized capture is not empty. It is `home/D/name`, with D the folder the captured word maps to (Desktop, Documents or Downloads) and the name the normalized capture |
| DeleteIntent.ParseDeleteDirIntent | src/lib/delete-intent.ts:47-69 | a result exists exactly when there is a home folder, the trimmed message starts with a delete verb and contains `文件夹`, the folder pattern matches and the normalized capture is not empty. It is `home/D/name`, with D the folder the captured word maps to and the name the normalized capture |
| DeleteIntent.AtMostOneDeleteIntent | src/lib/delete-intent.ts:27-55 | the file and folder parsers never both succeed |
| DeleteIntent.FileRequestUnderstood | src/lib/delete-intent.ts:19-41 | any of the four verbs, any white space, any folder word, `上` with or without `的`, then a name free of white space, ，。！？ and `文件夹`, is understood as deleting `home/<folder>/<name>` with the name normalized. An empty normalized name gives no result |
| DeleteIntent.FolderRequestUnderstood | src/lib/delete-intent.ts:47-69 | the same words followed by a name free of 文, white space and `文件夹` are understood as deleting the folder `home/<folder>/<name>` with the name normalized. An empty normalized name gives no result |
| DeleteIntent.NoVerbNoMatch | src/lib/delete-intent.ts:30 | without a delete verb from a position on, the pattern matches nowhere after it |
| DeleteIntent.UpperIsRequired | src/lib/delete-intent.ts:30-58 | for every message without `上`, neither delete parser gives a result: `上` is mandatory in both patterns |
| GenerateFilesIntent.Clamp | src/lib/generate-files-intent.ts:33 | the count lies in 1..100 and is the requested number when that is in range |
| GenerateFilesIntent.FirstCount | src/lib/generate-files-intent.ts:30 | the number read at the leftmost position where the count pattern matches, and none exactly when it matches nowhere |
| GenerateFilesIntent.FirstDirMatch | src/lib/generate-files-intent.ts:37-39 | a match captures a folder word and a non-empty folder name of characters outside white space and ，。！？、 |
| GenerateFilesIntent.DirMatchAt | src/lib/generate-files-intent.ts:38 | a match at one position captures a folder word and a non-empty folder name of characters outside white space and ，。！？、 |
| GenerateFilesIntent.FormatOf | src/lib/generate-files-intent.ts:49 | the format is json exactly when the message contains `json` in any ASCII letter case |
| GenerateFilesIntent.TopicOf | src/lib/generate-files-intent.ts:50-54 | fruit and vegetable exactly when 水果 or 蔬菜 occurs, otherwise test exactly when 测试 occurs, otherwise data |
| GenerateFilesIntent.ParseGenerateFilesIntent | src/lib/generate-files-intent.ts:22-57 | a result exists exactly when there is a home folder and both the count pattern and the folder pattern match the trimmed message. The count is the clamped first count, in 1..100. The folder name is the first folder match's non-empty name and the path is `home/D/name`. The format and topic are those of the trimmed message |
| GenerateFilesIntent.CountPhraseRead | src/lib/generate-files-intent.ts:30 | `生成`, white space, digits, white space and 条 or 个, followed by anything, reads back as the number the digits spell |
| GenerateFilesIntent.PlacePhraseMatch | src/lib/generate-files-intent.ts:38 | 到 or 在, white space, a folder word, white space, an optional 上, an optional 的, white space, a name and white space before `文件夹` match with that folder word and exactly that name |
| GenerateFilesIntent.RequestMatches | src/lib/generate-files-intent.ts:30-38 | in a count phrase, filler without 到 or 在, then a place phrase, the first count is the phrase's number and the first folder match is the place phrase's |
| GenerateFilesIntent.RequestUnderstood | src/lib/generate-files-intent.ts:22-57 | such a request is understood with count clamp(n), the folder name and the path `home/<folder>/<name>`, whatever the verb spacing, 条 or 个, 到 or 在, optional 上 and 的, and filler in between |
| GenerateFilesIntent.PoolEntry | src/lib/generate-files-intent.ts:60-66 | the pool is the twelve fruits followed by the twelve vegetables |
| GenerateFilesIntent.BuildJsonContent | src/lib/generate-files-intent.ts:63-78 | the items built in the loop are the file's item selection |
| GenerateFilesIntent.Items | src/lib/generate-files-intent.ts:60-78 | three items for the fruit and vegetable topic, one otherwise. Item k of file `index` has id `index*len+k+1` |
| GenerateFilesIntent.ItemsShape | src/lib/generate-files-intent.ts:63-78 | the fruit and vegetable topic gives three items with ids `index*3+i+1` from pool positions `(index*3+i) mod 24`. Other topics give one test item with id `index+1` |
| GenerateFilesIntent.IdsConsecutive | src/lib/generate-files-intent.ts:67-69 | across files 0..n-1 the item ids are exactly 1..3n, in order |
| GenerateFilesIntent.PoolRepeatsEveryEightFiles | src/lib/generate-files-intent.ts:68 | file index+8 repeats file index's produce, with ids 24 higher |
| GenerateFilesIntent.ExecuteGenerateFilesIntent | src/lib/generate-files-intent.ts:84-111 | exactly count files are attempted: success + failed = count and one path per success. The paths are those of the created files in increasing order |
| GenerateFilesIntent.CreatedIncreasing | src/lib/generate-files-intent.ts:93-105 | the created file numbers lie in 1..count and strictly increase |
| GenerateFilesIntent.CreatedExactly | src/lib/generate-files-intent.ts:93-108 | file i is listed exactly when i ≤ count and creating it succeeded |
| GenerateFilesIntent.AllCreated | src/lib/generate-files-intent.ts:93-105 | when every creation succeeds, files 1..count are all listed |
| GenerateFilesIntent.PathForInjective | src/lib/generate-files-intent.ts:96 | different file numbers give different paths |
| GenerateFilesIntent.PathsInFolder | src/lib/generate-files-intent.ts:96 | every path lies in the target folder |
| GenerateFilesIntent.PathFor | src/lib/generate-files-intent.ts:96 | the path starts with `dirPath/base_` and ends with the format's extension |
| BuiltinSkills.PathArgument | src/skills/builtin/read_file.ts:20-21 | a missing or falsy `path` is refused with `缺少参数: path 是必需的`. A `null` argument object is refused with the TypeError that reading a property of `null` raises |
| BuiltinSkills.Truncate | src/skills/builtin/read_file.ts:23-25 | content of at most 2000 characters is returned unchanged. Longer content keeps its first 2000 characters followed by a note |
| BuiltinSkills.TruncationNote | src/skills/builtin/read_file.ts:24 | the note is fixed text around a run of digits that reads back as the full length |
| BuiltinSkills.TruncatedLengthRecoverable | src/skills/builtin/read_file.ts:24 | the note carries the decimal length of the original content |
| BuiltinSkills.TruncateSeesOnlyHeadAndLength | src/skills/builtin/read_file.ts:23-25 | long contents with the same head and length truncate alike |
| BuiltinSkills.ReadFile | src/skills/builtin/read_file.ts:19-26 | the path check comes first, then the read. A read error is passed on, otherwise the content is truncated |
| BuiltinSkills.ReadRefusedBeforeRead | src/skills/builtin/read_file.ts:20-22 | a missing path is refused whatever the file service would do |
| BuiltinSkills.PathSchema | src/skills/builtin/read_file.ts:9-18 | the schema is an object schema whose `required` list is exactly `path` |
| BuiltinSkills.ReadFileSkill | src/skills/builtin/read_file.ts:4-27 | id `builtin/read_file`, name `read_file`, only `path` required, and the handler above |
| BuiltinSkills.ListingHeader | src/skills/builtin/list_files.ts:24 | the header is fixed text around a run of digits that reads back as the entry count |
| BuiltinSkills.Listing | src/skills/builtin/list_files.ts:23-25 | an empty listing is `目录为空`, and a non-empty one starts with `目录包含 n 个项目:\n` |
| BuiltinSkills.ListingRecoverable | src/skills/builtin/list_files.ts:24 | after the header, splitting at line feeds gives back the entries in order, and the header's number reads back as their count |
| BuiltinSkills.ListFiles | src/skills/builtin/list_files.ts:19-26 | the path check comes first, then the listing. A listing error is passed on, otherwise the entries are formatted |
| BuiltinSkills.ListRefusedBeforeListing | src/skills/builtin/list_files.ts:20-22 | a missing path is refused whatever the file service would do |
| BuiltinSkills.ListFilesSkill | src/skills/builtin/list_files.ts:4-27 | id `builtin/list_files`, name `list_files`, only `path` required, and the handler above |

## Left out

- Tauri detection, the dynamic import of `fetch` and the HTTP request itself: the network is the `FetchOutcome` parameter. Request headers are not modelled.
- `TextDecoder`: chunks arrive already decoded. Strings are sequences of Unicode characters, whereas JavaScript counts UTF-16 code units. The two agree on the Basic Multilingual Plane text the patterns and limits deal with.
- The JSON grammar and `JSON.stringify`: parsing is a parameter.
  - A frame whose parse or field access throws is an unparsable frame, and so is echoed as text. A throw part-way through a parsed frame, such as a malformed tool-call fragment at lines 137-149, reaches the same inner `catch` after some effects have already happened: content already delivered, fragments already merged. The model echoes the frame without those partial effects.
  - The generated JSON file content is modelled as its selected items, not as serialized text.
- JSON numbers are integers (`JsValues.Json.JNum(int)`). A fractional or exponent number cannot be represented: for example a fractional `message` in an error body, whose rendering `AiStream.ErrorDetail` would show, or a fractional `path` argument. Such values are outside the model.
- AiStream.ErrorDetail: the parsed error body's fields are JSON values rendered as strings. A getter or `toString` that throws is not modelled.
- AiStream.ErrorText: an error whose message is empty is reported by its name. This stands for `toString()`, which would give the name alone in that case. Non-`Error` throwables are not modelled.
- Callbacks are taken not to throw. A throw from `onMessage` or `onToolCalls` inside a parsed frame (`src/lib/ai-stream.ts` lines 132, 158 and 161) would be swallowed by the inner `catch` at lines 163-166, which echoes the payload. Only a throw at lines 96, 98, 114 or 116, or from that echo at line 165, would reach the outer `catch` at line 170 and be reported through `onError`. Neither path is modelled.
- The concurrency of `Promise.all` in `executeTools`: calls are executed in order, which gives the same records position by position.
- AbortSignal timing: an abort is visible only as the `AbortError` that `fetch` or `read()` rejects with. `AIRequest` models just the controller field.
- `console.warn`/`console.error` diagnostics, and zustand's `persist`/`localStorage` wiring: only the store's transitions are modelled.
- The `create_file`, `delete_file` and `delete_dir` skills, which are thin wrappers over a file service that is not part of this model. The clock skill's handler (`Date`, `toLocaleString`) is a parameter; only its id and name are stated.
- The timestamp in generated text files is not modelled; a text file's content is its number. `createFile` is a parameter reporting success or failure.
- `parseInt` precision for numbers beyond 2^53 is not modelled. Any number above 100 clamps to 100 either way.
- The check `count < 1` after clamping can never fire. It is kept in the model and has no effect.
- GenerateFilesIntent.ParseGenerateFilesIntent: the `i` flag and the `\.json` alternative of the format test are subsumed by a case-insensitive search for "json". Letter case is folded for ASCII only.
- BuiltinSkills.PathArgument: the message for a `null` argument object is V8's wording of the TypeError. JavaScriptCore, the engine of the macOS and Linux webviews, words it `null is not an object (evaluating 'args.path')`. The model fixes one engine's text.
- The registry's built-in list is a constructor parameter (the module `src/skills/builtin/index.ts` is not part of this model), as is the clock handler.
