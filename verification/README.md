# aimux-core, verified

A Dafny model of the deterministic engine of aimux-core: the repair of
truncated JSON, the text stream and its result, the OpenAI chunk converter, the
repair of tool calls, the response messages of a step and their patch, the
conversion of a history into a prompt, the distance behind "did you mean", and
the validation of decision answers. Code that updates state is modelled by
classes and loops, each proved equal to a specification function; the theorems
are about those functions, for all inputs and all runs. `dafny verify
dfyconfig.toml` covers the project.

| files | component |
|---|---|
| `JsonGrammar`, `JsonScanner`, `JsonRepair`, `JsonLimits`, `JsonKeys`, `JsonUtf16` | partial-JSON repair against the grammar of sections 2 to 7 of RFC 8259 |
| `StreamPump` | pump, bounded channel, overflow slot, deadlines and clock as a state machine |
| `TextStream`, `TextStreamProofs`, `StreamBlocks` | the consumer that frames a step, `consume`, and what is kept of the text |
| `StreamOutcome`, `ConsumeOutcome`, `StepContent` | what the stream shows of each part, what `consume` returns, and what a step holds, by places alone |
| `StreamedResult` | the way from the provider's items to the content of a consumed stream |
| `OpenAiChunks`, `OpenAiProofs`, `OpenAiContent`, `OpenAiIdentity` | the chunk converter, its framing, what the chunks say and whose they are |
| `ToolCallRepair`, `ResultPatch`, `PatchReplay` | parsing and repairing tool calls; patching a finished result |
| `ResponseMessages`, `ResponseReplay`, `Generation`, `GenerationReplay` | the content builder, its messages, and generated content |
| `PromptHistory`, `PromptConversion`, `PromptReplay`, `OptionsMerge` | prompt conversion and its history check |
| `EditDistance`, `DidYouMean`, `Decision`, `DecisionBounds` | optimal string alignment; suggestions; decision answers |
| `Content`, `Selections`, `Wrappers` | the values and relations these share |

Where code and documentation differ, or a promise does not hold, the model
follows the code:

- The repair is documented for any truncated JSON text, but object keys are
  scanned without escapes. `JsonLimits.EscapedQuoteBreaksRepair` gives a
  truncation of a JSON text that is repaired into no JSON text. The theorems
  ask that the scanner is, at the end of a key, where it is at the end of any
  key. `JsonKeys.KeysExactly` shows that these are exactly the keys that can be
  repaired; all keys without escapes are among them.
- A top-level number with a `+` exponent loses its end: `JsonLimits.KeepsComplete`
  says complete texts are kept exactly when the value is not such a number;
  `JsonLimits.PlusExponentIsCut` shows `1e+2`.
- A final call for an id that only had argument deltas takes a second index in
  the chunk stream. `OpenAiProofs.OneIndexPerCall` gives the exact condition,
  `OpenAiProofs.SplitCallTakesTwoIndices` a stream.
- A patched result agrees with rebuilding it only when the replacement keeps
  the provider flag and metadata, which the patch does not write into the
  messages: `ResultPatch.RepairedResultAgrees`, both ways, and
  `ResultPatch.FlagIsNotPatched`.
- A host that gets a call back after a rejected replacement may not see the
  provider's text: `ToolCallRepair.RejectedReplyKeepsTextExactly`, both ways,
  and `ToolCallRepair.RejectedReplyLosesSpace`.
- A repair callback that gives a call another id can reach the `expect` in
  `convert_generated_content`: `Generation.PanicsExactly`, both ways, and
  `Generation.RenamingRepairPanics`.
- A response that requests approval under an approval id of the history can
  take the approval from the earlier call. `Generation.ResponseLeavesValidCallsOpen`
  says when the calls of the history are then reported, both ways;
  `Generation.ReusedApprovalIdLosesApproval` shows a response that does it.
- When an earlier message of a run of tool messages is empty, its options are
  merged into the last part of the message before it, or are dropped when there
  is none; `PromptConversion.RunBecomesOne` states the options of every part.

## Model

| member | source | states |
|---|---|---|
| `JsonScanner.FixJson` | aimux-core/src/json_repair.rs:39-62 | the scan over byte offsets with a vector of frames returns `Fixed`, the keepable prefix of a scan over characters and the closers of its open frames |
| `JsonScanner.Repair.Mark` | aimux-core/src/json_repair.rs:152-155 | the mark is the end of the character in bytes |
| `JsonScanner.Repair.Close` | aimux-core/src/json_repair.rs:157-162 | the innermost frame is gone and its last character is kept |
| `JsonScanner.Repair.PushValue` | aimux-core/src/json_repair.rs:164-170 | a value is opened; a `-` alone is not kept |
| `JsonScanner.Repair.PassAfterValue` | aimux-core/src/json_repair.rs:172-189 | what a character after a value does to the container |
| `JsonScanner.Repair.PopScalar` | aimux-core/src/json_repair.rs:191-196 | a number or literal ends at a character that its container also reads |
| `JsonScanner.Repair.Feed` | aimux-core/src/json_repair.rs:198-274 | one step is the specified step of the frame machine |
| `JsonScanner.Repair.FeedObject` | aimux-core/src/json_repair.rs:203-218 | the step inside an object |
| `JsonScanner.Repair.FeedArray` | aimux-core/src/json_repair.rs:219-238 | the step inside an array |
| `JsonScanner.Repair.FeedString` | aimux-core/src/json_repair.rs:239-259 | the step inside a string, its escapes included |
| `JsonScanner.Repair.FeedChar` | aimux-core/src/json_repair.rs:50-60 | a character outside the Basic Multilingual Plane is stepped twice |
| `JsonScanner.Repair.Finish` | aimux-core/src/json_repair.rs:276-287 | the result is the marked prefix, cut at a character boundary, and the closers from the innermost frame out |
| `JsonScanner.StepMarks` | aimux-core/src/json_repair.rs:198-274 | whether a step marks does not depend on the mark nor on how ends are counted, so bytes, characters and code units scan alike |
| `JsonUtf16.HalvesStepAlike` | aimux-core/src/json_repair.rs:50-60 | stepping a wide character twice is stepping its two surrogates, from every state |
| `JsonUtf16.StepInUnits` | aimux-core/src/json_repair.rs:50-60 | after every character the unit scan has the same stack and a mark that splits no character |
| `JsonUtf16.PortMatchesUpstream` | aimux-core/src/json_repair.rs:39-62 | the scanner over UTF-16 code units returns the encoding of the same text, for every input |
| `JsonRepair.ValueScan` | aimux-core/src/json_repair.rs:150-274 | the scan of any prefix of a value keeps a value of the grammar, whatever it stands in |
| `JsonRepair.RepairedDocument` | aimux-core/src/json_repair.rs:39-287 | the repair of a repairable truncation spells a JSON document, with the same whitespace before it |
| `JsonLimits.RepairsExactly` | aimux-core/src/json_repair.rs:39-287 | a prefix of a JSON text with such keys is repaired into a JSON text if and only if it reaches into the value and does not end in a `-` that is all of the top-level value or opens an array's first element |
| `JsonLimits.KeepsComplete` | aimux-core/src/json_repair.rs:150-287 | a complete text loses its trailing whitespace and nothing else, if and only if its value is not a number with a `+` exponent |
| `JsonLimits.RepairIsIdempotent` | aimux-core/src/json_repair.rs:150-287 | repairing a repaired truncation changes nothing |
| `JsonLimits.KeptPrefixGrows` | aimux-core/src/json_repair.rs:150-287 | for any input at all, more input never shortens the kept prefix |
| `JsonLimits.EscapedQuoteBreaksRepair` | aimux-core/src/json_repair.rs:208-208 | an escaped quote and a colon in a key give a repair that is not JSON |
| `JsonLimits.PlusExponentIsCut` | aimux-core/src/json_repair.rs:260-264 | `1e+2` is JSON and is repaired into `1` |
| `JsonKeys.KeysExactly` | aimux-core/src/json_repair.rs:203-218 | every repairable truncation of every document with a key is repaired if and only if scanning the key, as the object's steps do, keeps nothing and ends where every key ends |
| `JsonKeys.PlainKeyIsSafe` | aimux-core/src/json_repair.rs:203-218 | so does every key without a `:` after a `"`, such as one without escapes |
| `JsonKeys.KeyThatRecovers` | aimux-core/src/json_repair.rs:203-218 | the key `\":-,\"` does too |
| `JsonKeys.FirstKey` | aimux-core/src/json_repair.rs:39-287 | the first key of a JSON object and its colon, which a cut key does not have |
| `StreamPump.ReceivedInOrder` | aimux-core/src/generate.rs:1727-1893 | in every interleaving the finished consumer has the provider's items in order up to the first terminal one, then a deadline error exactly once and last, even with a full channel; without a deadline nothing is lost |
| `StreamPump.ReceivedIsPrefix` | aimux-core/src/generate.rs:1727-1893 | at every point of a run, what was received is a prefix of the first items, up to a terminal one, and the error of the deadline that fired |
| `StreamPump.ReceivedOnlyGrows` | aimux-core/src/generate.rs:1857-1884 | what was received only grows |
| `StreamPump.FiredByTimeout` | aimux-core/src/generate.rs:1733-1834 | the deadline error names exactly the deadline of a timeout step that was taken: one that had passed, the operation's or the chunk deadline of that moment |
| `StreamPump.ChunkDeadlineIs` | aimux-core/src/generate.rs:1775-1827 | in every run the chunk deadline is the one armed last, at the start or directly after output was sent and with no output sent since, moved by the time blocked since and by nothing else |
| `StreamPump.NeverStuck` | aimux-core/src/generate.rs:1727-1884 | until the consumer is done, a step other than the clock is possible |
| `StreamPump.BudgetIsRespected` | aimux-core/src/generate.rs:1733-1834 | the chunk or first-chunk timeout can fire if and only if the pump waits for the provider and the time since the deadline was last armed, less all time blocked since, has reached its duration |
| `TextStream.ProduceStream` | aimux-core/src/generate.rs:1857-2035 | the consumer loop yields the specified stream for every sequence of deliveries |
| `TextStream.Apply` | aimux-core/src/generate.rs:778-880 | what each part of the stream does to the content builder |
| `TextStream.Consume` | aimux-core/src/generate.rs:762-919 | the fold of a stream into steps, first error, abort and usage |
| `TextStreamProofs.StreamIsFramed` | aimux-core/src/generate.rs:1857-2035 | every stream begins with the one `Start`, opens its step at most once and before its parts, and ends in exactly one of: finished step then finish, no output, abort, fatal error |
| `StreamOutcome.StreamTells` | aimux-core/src/generate.rs:1857-2035 | for all deliveries: each one up to the first that ends the stream adds what it is shown as, such as a result marked as an error as the tool error and any other as the tool result, with the input of the last call of its id; the stream closes with the reason and usage of the last finish, failed after an error part or when the tool choice was not met, or with the abort, the error, or that there was no output |
| `ConsumeOutcome.ConsumeReturns` | aimux-core/src/generate.rs:762-919 | for all streams: the error that stopped reading; else the first problem; else, when no step finished, the abort or that there was no output; else a record of every step finished, with the usage of the finish |
| `StepContent.RecordHolds` | aimux-core/src/generate.rs:778-880 | every recorded step holds what its parts leave, in order and nothing else: blocks with their deltas and last metadata, calls, results, errors, approvals, sources, files and custom parts |
| `StreamBlocks.BuilderKeeps` | aimux-core/src/response_messages.rs:73-134 | the builder's index maps are the open blocks with their places; each block's place holds its deltas in order; no other part has text |
| `StreamBlocks.ActiveBlocksAgree` | aimux-core/src/generate.rs:1986-2018 | at every point of every run, also after errors, the consumer's active sets are the keys of the builder's index maps |
| `StreamBlocks.NothingLost` | aimux-core/src/generate.rs:762-919 | if `consume` succeeds, the stream was one finished step, every text and reasoning delta belonged to an open block, and the content holds every block's deltas, in order, in a part of its own |
| `StreamedResult.EveryDeltaIsKept` | aimux-core/src/generate.rs:1727-2035 | when no deadline fired and `consume` succeeds on the stream of what the pump delivered, that is all items up to the first terminal one, and the content holds all their text and reasoning deltas, in order, block by block |
| `StreamedResult.RunReplays` | aimux-core/src/generate.rs:1895-2018 | at every point of a run the content gathered has the form text generation builds, and answers its invalid client calls |
| `StreamedResult.ConsumedIsReplayable` | aimux-core/src/generate.rs:762-919 | so has the content of a stream that `consume` succeeds on, so that `ResultPatch.RepairedResultAgrees` and `Generation.ResponseLeavesValidCallsOpen` are about it too |
| `OpenAiChunks.Converter.constructor` | aimux-core/src/openai_output.rs:667-684 | the initial state |
| `OpenAiChunks.Converter.Begin` | aimux-core/src/openai_output.rs:698-726 | one role frame, with the reported identity |
| `OpenAiChunks.Converter.BeginIfPending` | aimux-core/src/openai_output.rs:728-734 | the deferred role frame |
| `OpenAiChunks.Converter.OpenCall` | aimux-core/src/openai_output.rs:807-849 | a call gets an index once |
| `OpenAiChunks.Converter.StreamArguments` | aimux-core/src/openai_output.rs:851-897 | a fragment is recorded and sent under the call's index |
| `OpenAiChunks.Converter.FinishCall` | aimux-core/src/openai_output.rs:901-988 | the final call sends what was not streamed, or all of a call not opened |
| `OpenAiChunks.Converter.ShowError` | aimux-core/src/openai_output.rs:1115-1132 | an error is shown as content, not after the finish |
| `OpenAiChunks.Converter.Conclude` | aimux-core/src/openai_output.rs:1134-1171 | the finish chunk, once |
| `OpenAiChunks.Converter.Process` | aimux-core/src/openai_output.rs:737-1113 | the chunks and the new state for every part |
| `OpenAiChunks.ConvertStream` | aimux-core/src/openai_output.rs:573-629 | the loop over the stream yields the specified chunks |
| `OpenAiProofs.StreamIsFramed` | aimux-core/src/openai_output.rs:573-629 | exactly one finish chunk, and it is last; a role frame only as the first chunk, and there when the input begins with `Start`; one id, model and creation time |
| `OpenAiContent.StreamSays` | aimux-core/src/openai_output.rs:737-1171 | for every input stream: the text, reasoning, errors and calls of the chunks are, in order, those of the items up to the one that ends it, a call's arguments being all or what was not streamed of them; only the finish chunk has a reason and usage, those of the finish item, the usage when asked for |
| `OpenAiIdentity.StreamIsNamed` | aimux-core/src/openai_output.rs:698-734 | for every input stream: all chunks carry the id and model known when the first of them is sent, and there is a role frame if and only if that first one is output or a start is waiting |
| `OpenAiProofs.IndicesAreConsistent` | aimux-core/src/openai_output.rs:807-988 | each index has one call, indices first appear as 0, 1, 2, ..., and the fragments sent under a call's index are its recorded arguments |
| `OpenAiProofs.IndexBelongsToCall` | aimux-core/src/openai_output.rs:807-988 | a chunk sent under an index for a part is about the call that has the index in the end |
| `OpenAiProofs.FinalCall` | aimux-core/src/openai_output.rs:901-988 | over every run: when a final call extends what was streamed of it, the fragments sent under its index are its arguments, then and, if only repeats follow, at the end; a repeat sends nothing, nor does a final call that does not extend |
| `OpenAiProofs.OneIndexPerCall` | aimux-core/src/openai_output.rs:807-988 | for every input stream, every call keeps to one index if and only if, up to the item that ends the stream, no final call comes for an id that had deltas and no start |
| `OpenAiProofs.SplitCallTakesTwoIndices` | aimux-core/src/openai_output.rs:851-988 | a delta of an id that never started and its final call take two indices |
| `ToolCallRepair.ForbiddenAnywhere` | aimux-core/src/parse_tool_call.rs:428-443 | the search finds a forbidden key exactly when some path leads to one |
| `ToolCallRepair.ParsesExactly` | aimux-core/src/parse_tool_call.rs:247-302 | parsing gives an input if and only if the text reads as it and the tool is the provider's, or a function whose schema it meets, or there is none and the provider runs the call as dynamic |
| `ToolCallRepair.FailureIsExplained` | aimux-core/src/parse_tool_call.rs:247-302 | otherwise the error says which of these failed |
| `ToolCallRepair.CallWithTools` | aimux-core/src/parse_tool_call.rs:161-207 | a call that parses comes back valid with its id, name, flag and metadata, whatever the callback; any other as the callback's reply makes it, or invalid with the error |
| `ToolCallRepair.CallWithoutTools` | aimux-core/src/parse_tool_call.rs:161-207 | without a tool set no callback is asked, and only the provider's dynamic calls are valid |
| `ToolCallRepair.ReplyIsTaken` | aimux-core/src/parse_tool_call.rs:224-245 | what each reply makes of a failed call: a replacement that parses is taken, one that does not leaves its error, no replacement the first error, a failed reply both |
| `ToolCallRepair.RepairedIsValid` | aimux-core/src/parse_tool_call.rs:224-302 | a call not marked invalid was read from the replacement's text and meets its tool's schema; one still invalid is otherwise the provider's |
| `ToolCallRepair.FailureKeepsText` | aimux-core/src/parse_tool_call.rs:247-302 | every failure records the argument text of the call |
| `ToolCallRepair.HostSeesTheCall` | aimux-core/src/parse_tool_call.rs:567-598 | the call rebuilt from an invalid one is the raw call, but for `dynamic` |
| `ToolCallRepair.HostRepairIsCallbackRepair` | aimux-core/src/parse_tool_call.rs:687-695 | for every failing call and every reply, the host's repair gives the very call that `parse_tool_call` gives with that callback |
| `ToolCallRepair.TextStaysRecoverable` | aimux-core/src/parse_tool_call.rs:539-598 | after any run of unchanged and failed replies the exact text is still there, and a replacement is taken as if it were the first reply |
| `ToolCallRepair.RejectedReplyKeepsTextExactly` | aimux-core/src/parse_tool_call.rs:539-598 | after a rejected replacement the text comes back if and only if the replacement has the same text, or reads as another input and the text is what its input is rewritten as |
| `ToolCallRepair.RejectedReplyLosesSpace` | aimux-core/src/parse_tool_call.rs:539-598 | with a concrete reader, the text ` 1` comes back as `1` after a rejected replacement |
| `ToolCallRepair.PlainTextSurvives` | aimux-core/src/parse_tool_call.rs:539-598 | text that is no JSON comes back unless the replacement is its quotation |
| `ResponseMessages.ResponseMessageBuilder.TextStart` | aimux-core/src/response_messages.rs:73-79 | a text block starts empty at the end of the content |
| `ResponseMessages.ResponseMessageBuilder.TextDelta` | aimux-core/src/response_messages.rs:83-97 | a delta changes its block's part only, or nothing |
| `ResponseMessages.ResponseMessageBuilder.TextEnd` | aimux-core/src/response_messages.rs:99-102 | the block is closed, its metadata updated |
| `ResponseMessages.ResponseMessageBuilder.ReasoningStart` | aimux-core/src/response_messages.rs:104-110 | as for text |
| `ResponseMessages.ResponseMessageBuilder.ReasoningDelta` | aimux-core/src/response_messages.rs:114-129 | as for text |
| `ResponseMessages.ResponseMessageBuilder.ReasoningEnd` | aimux-core/src/response_messages.rs:131-134 | as for text |
| `ResponseMessages.ResponseMessageBuilder.AddResult` | aimux-core/src/response_messages.rs:184-219 | a provider result with its call's input, unless preliminary |
| `ResponseMessages.ResponseMessageBuilder.AddStreamedResult` | aimux-core/src/response_messages.rs:223-227 | a streamed result, unless preliminary |
| `ResponseMessages.ResponseMessageBuilder.BuildMessages` | aimux-core/src/response_messages.rs:251-370 | one assistant message and one tool message, each only when not empty |
| `ResponseMessages.SortIsStable` | aimux-core/src/response_messages.rs:417-434 | the results are in call order, unknown calls last, nothing lost, and equal keys keep their order |
| `ResponseMessages.ToolMessageIsSorted` | aimux-core/src/response_messages.rs:372-442 | the tool message's results are that sort, and approval answers keep their places |
| `ResponseMessages.BuildToolMessage` | aimux-core/src/response_messages.rs:372-442 | the loops build that message |
| `ResponseReplay.AssistantReplays` | aimux-core/src/response_messages.rs:251-370 | the assistant message has, in order, exactly the parts of the content that belong in it, each replayed as itself |
| `ResponseReplay.ToolPartsAnswer` | aimux-core/src/response_messages.rs:372-416 | the tool message has, at its place, the answer of each client result, error and approval: text or JSON for a success, error text for an error |
| `ResponseReplay.MessagesAre` | aimux-core/src/response_messages.rs:251-370 | the messages are these two, each only when not empty, the assistant's first |
| `ResponseReplay.OrderIsFirstOccurrence` | aimux-core/src/response_messages.rs:372-442 | the calls are ordered by where each id first occurs |
| `ResultPatch.PatchIsRebuild` | aimux-core/src/parse_tool_call.rs:763-851 | for a generated step, patching its messages gives the messages of the patched content if and only if the repaired call keeps flag and metadata |
| `ResultPatch.SortPatched` | aimux-core/src/response_messages.rs:417-434 | patching the sorted results is sorting the patched results |
| `ResultPatch.PatchedIsGenerated` | aimux-core/src/parse_tool_call.rs:763-798 | a patched step is again of the form text generation builds |
| `ResultPatch.RepairedResultAgrees` | aimux-core/src/parse_tool_call.rs:722-857 | after a repair of a whole result all steps agree with their messages if and only if flag and metadata are kept; always when the call is still invalid |
| `PatchReplay.ContentIsPatched` | aimux-core/src/parse_tool_call.rs:774-798 | the call, the call of its approval requests and its error become the repaired call's, a valid call's error goes, and all else stays in order |
| `PatchReplay.PartsAreRewritten` | aimux-core/src/parse_tool_call.rs:800-823 | assistant parts of the call take the repaired id, the call its name and input; no other part changes |
| `PatchReplay.AnswersArePatched` | aimux-core/src/parse_tool_call.rs:824-844 | the call's result becomes the repaired call's error, or goes when there is none; no other answer changes |
| `PatchReplay.MessagesArePatched` | aimux-core/src/parse_tool_call.rs:800-851 | messages stay in order, tool messages are patched only after the client's error and go when empty |
| `PatchReplay.RepairIsAnswered` | aimux-core/src/parse_tool_call.rs:600-695 | a host may repair exactly an invalid call with its error, made with tools |
| `PatchReplay.ResultIsRepaired` | aimux-core/src/parse_tool_call.rs:722-857 | a result is repaired if and only if exactly one call has the id, a host may repair it and the repaired id is its own or free; every step is then patched in its place |
| `ResultPatch.FlagIsNotPatched` | aimux-core/src/parse_tool_call.rs:799-823 | a generated step and a reply that makes its call the provider's: the patched messages differ from those of the patched content |
| `ResultPatch.RetainContent` | aimux-core/src/parse_tool_call.rs:774-798 | the content loop, and whether it met the call's tool error |
| `ResultPatch.RewriteParts` | aimux-core/src/parse_tool_call.rs:800-823 | the assistant parts, rewritten in place |
| `ResultPatch.RetainAnswers` | aimux-core/src/parse_tool_call.rs:824-844 | the tool parts, rewritten or removed |
| `ResultPatch.PatchOneStep` | aimux-core/src/parse_tool_call.rs:773-851 | one step, empty tool messages dropped |
| `ResultPatch.ApplyToResult` | aimux-core/src/parse_tool_call.rs:722-857 | the whole repair: missing, ambiguous and conflicting ids are refused, in that order |
| `Generation.ConvertGenerated` | aimux-core/src/generate.rs:1285-1375 | the content and messages of a generated call, its errors and its panic |
| `Generation.AddToBuilder` | aimux-core/src/generate.rs:1293-1365 | one item of the model's output into the builder, or the error or panic it ends in |
| `Generation.PanicsExactly` | aimux-core/src/generate.rs:1293-1365 | generation panics if and only if a call whose id no parsed call has comes before every item that stops it; it succeeds if and only if there is neither |
| `Generation.NoPanicWithoutRenaming` | aimux-core/src/generate.rs:1299-1305 | repairs that keep ids never cause the panic |
| `Generation.RenamingRepairPanics` | aimux-core/src/generate.rs:1299-1305 | a repair that gives a single call another id causes it |
| `Generation.ContentIsGenerated` | aimux-core/src/generate.rs:1366-1374 | generated content has the form repairs are patched into, and answers every client call that could not be parsed |
| `GenerationReplay.ContentHoldsItems` | aimux-core/src/generate.rs:1285-1375 | generated content holds, in order, every item but preliminary results as itself, then an error for each call that could not be parsed |
| `GenerationReplay.CallsAreParsed` | aimux-core/src/generate.rs:1293-1310 | every call item is parsed, in order, with its own repair |
| `Generation.ResponseLeavesValidCallsOpen` | aimux-core/src/language_model_message.rs:1237-1314 | for any history and the response messages appended to it, results are missing only for calls the response opened if and only if the calls of the history stay answered; those are then valid client calls of the response, and none when it has none |
| `Generation.ApprovalsStay` | aimux-core/src/language_model_message.rs:1237-1270 | approvals stay when no later request takes an approval id of the history |
| `Generation.AcceptedHistoryStays` | aimux-core/src/language_model_message.rs:1275-1314 | the calls of an accepted history stay answered when its approvals stay |
| `Generation.ReusedApprovalIdLosesApproval` | aimux-core/src/language_model_message.rs:1237-1270 | a generated response that takes an approval id of the history has an approved call reported missing |
| `PromptHistory.CheckIsTheRule` | aimux-core/src/language_model_message.rs:1275-1314 | accepted if and only if every unapproved client call has a later result before the next user or system message or the end; otherwise the ids open at the first failing place are named, in the order they were opened |
| `PromptHistory.OpenedAtIsFirst` | aimux-core/src/language_model_message.rs:1290-1307 | the place an id was opened is its first call since it was last answered or a turn passed |
| `PromptHistory.ListedOnce` | aimux-core/src/language_model_message.rs:1279-1289 | no id is named twice |
| `PromptHistory.OnlyNewCallsMissing` | aimux-core/src/language_model_message.rs:1275-1314 | when events without a turn follow a history, all ids then named were opened by them if and only if the calls before stay answered |
| `PromptConversion.PushMessage` | aimux-core/src/language_model_message.rs:1206-1233 | a tool message after a tool message is combined with it |
| `PromptConversion.ApprovedCalls` | aimux-core/src/language_model_message.rs:1237-1270 | the calls whose last request under an approval id has a response |
| `PromptConversion.CheckToolResults` | aimux-core/src/language_model_message.rs:1275-1314 | the loop over messages and parts is the check of the history |
| `PromptConversion.ConvertPrompt` | aimux-core/src/language_model_message.rs:1142-1200 | the whole conversion, its first error included |
| `PromptConversion.PromptIsGrouped` | aimux-core/src/language_model_message.rs:1163-1233 | no two adjacent and no empty tool messages; all other messages and all tool parts are there, in order |
| `PromptConversion.RunBecomesOne` | aimux-core/src/language_model_message.rs:1202-1233 | a run of tool messages, whatever comes before and after it, becomes one message with the last one's options; a part that is not the last of an earlier message is unchanged |
| `PromptConversion.LastInheritsOnce` | aimux-core/src/language_model_message.rs:1224-1230 | when no earlier message is empty, the last part of each takes its message's options under its own, and no others |
| `PromptConversion.CheckedIsHistory` | aimux-core/src/language_model_message.rs:1163-1192 | converting and combining keep all client calls, results and turns in order |
| `PromptConversion.AcceptedHistory` | aimux-core/src/language_model_message.rs:1142-1200 | a history whose messages convert has a prompt exactly when the rule holds of the history itself |
| `PromptReplay.PartsAreSent` | aimux-core/src/language_model_message.rs:575-666 | an assistant turn is sent in order, without exactly the parts that are not sent, each part as itself; or its first part that fails gives the error |
| `PromptReplay.AnswersAreSent` | aimux-core/src/language_model_message.rs:681-706 | a tool message is sent in order with every result under its name, or some result has none |
| `PromptReplay.MessageIsSent` | aimux-core/src/language_model_message.rs:1006-1085 | what each kind of message is sent as, or fails with |
| `PromptReplay.HistoryIsSent` | aimux-core/src/language_model_message.rs:1142-1200 | every message is sent in its place with its options, or the first that fails gives the error |
| `PromptReplay.NamesAreLast` | aimux-core/src/language_model_message.rs:1142-1200 | a result without a name takes that of the last call of its id so far |
| `PromptReplay.InstructionsLead` | aimux-core/src/language_model_message.rs:1142-1200 | the prompt begins with the instructions |
| `OptionsMerge.OverWins` | aimux-core/src/shared.rs:93-105 | inside an object, an overriding value that is no object is the merged value |
| `OptionsMerge.BaseKept` | aimux-core/src/shared.rs:93-105 | inside an object, a base value that is not touched is kept |
| `OptionsMerge.OwnOptionWins` | aimux-core/src/shared.rs:106-127 | a part's own option for a provider is the merged one |
| `OptionsMerge.MessageOptionKept` | aimux-core/src/shared.rs:106-127 | an option of the message is kept where the part's own say nothing |
| `OptionsMerge.SkippedIsKept` | aimux-core/src/shared.rs:93-105 | where both have an object, a base value under `__proto__`, `constructor` or `prototype` stays as it is |
| `OptionsMerge.NothingAdded` | aimux-core/src/shared.rs:93-105 | what the merge has at a path, one of the two has there |
| `OptionsMerge.SkippedProvider` | aimux-core/src/shared.rs:106-127 | so do the options under such a name of a provider |
| `OptionsMerge.MergeObject` | aimux-core/src/shared.rs:93-105 | the loop over the keys of an object is the merge |
| `OptionsMerge.MergeInto` | aimux-core/src/shared.rs:89-129 | the loop over the providers is the merge |
| `EditDistance.ComputeDistance` | aimux-core/src/error.rs:927-948 | the table gives the distance |
| `EditDistance.DistanceIsLeastCost` | aimux-core/src/error.rs:925-948 | the distance is the least cost of all scripts of insertions, deletions, substitutions and adjacent swaps that edit no position twice |
| `EditDistance.DistanceLaws` | aimux-core/src/error.rs:925-948 | symmetric, zero exactly on equal names, at least the length difference, at most the longer length |
| `DidYouMean.SortUnstable` | aimux-core/src/error.rs:912-912 | sorted by distance then name, nothing lost |
| `DidYouMean.Dedup` | aimux-core/src/error.rs:913-913 | neighbours of one name are one |
| `DidYouMean.Suggest` | aimux-core/src/error.rs:886-922 | at most three names, close ones only, each once, nearest first, none nearer left out |
| `DidYouMean.NearestIsUnique` | aimux-core/src/error.rs:886-922 | only one list of names is that |
| `DidYouMean.CloseIsFewEdits` | aimux-core/src/error.rs:880-903 | a name is close if and only if a script of at most two edits, and at most a third of the longer name, makes it, case and dashes aside |
| `Decision.ValidInputIsAnswerable` | aimux-core/src/decision_model.rs:399-429 | a request is valid exactly when it has questions and each can be answered |
| `Decision.AcceptedExactly` | aimux-core/src/decision_model.rs:482-566 | answers are accepted exactly when the decimals are in range, the ids are the questions' and each answer fits its question, a distribution having exactly the question's keys |
| `Decision.HonestIsAccepted` | aimux-core/src/decision_model.rs:439-566 | a distribution and mean score rounded monotonically to the declared decimals are never rejected |
| `Decision.HalfUpIsRounding` | aimux-core/src/decision_model.rs:462-480 | rounding half up to the declared decimals is such a rounding |
| `DecisionBounds.ErrorIsHalfUnit` | aimux-core/src/decision_model.rs:462-480 | the error allowed is half a unit of the last declared decimal, none without decimals, and at most fifteen decimals are allowed |
| `DecisionBounds.NoSmallerError` | aimux-core/src/decision_model.rs:462-480 | no smaller error would let all honest rounding pass |
| `DecisionBounds.AcceptedIsNear` | aimux-core/src/decision_model.rs:482-566 | every accepted distribution is near a true one, its choice near its maximum and its score near its mean, but for the declared rounding and a millionth |
| `DecisionBounds.RejectionSays` | aimux-core/src/decision_model.rs:482-566 | a rejection names the decimals, the ids, or the first question in order whose answer does not fit |

## Left out

- StreamPump.ReceivedInOrder: abort and drop of the stream are not steps of the machine, and deadlines never overflow the clock; the pump is a state machine over values, so the update of its variables in place is not shown.
- Decision.HonestIsAccepted: `f64` is a real number or one that is not finite; rounding inside the validator's own sums is not modelled.
- OptionsMerge.MergeObject: the order of keys in an object is not modelled.
- OpenAiContent.StreamSays: the index of a call's chunks is in `OpenAiProofs.IndexBelongsToCall` and `IndicesAreConsistent`, not here.
- JSON parsing, rendering and JSON Schema validation are parameters; so are user content, clocks, ids and timestamps, and the answer of the repair hook to each call and of file resolution to each file.
- The wording of error messages, of `did_you_mean` and of warnings is not modelled beyond what the code reads back.
- Number comparison in `is_deep_equal_data` is equality of values.
- Timings, request and response metadata, usage arithmetic (`usage_to_openai`) and the content observed for a tool-choice error are not part of the model: they only copy fields.
- Log probabilities and files given by URL in the chunk converter: further fields of the same chunks.
- Content outputs of tool results, with their deprecated file items, in prompt conversion: each is a copy of its fields.
- Middleware, providers, retry, recording, sessions, embedding, image, reranking and downloads: pass-through code or input and output.
