/**
 The values the text pipeline passes around: JSON, errors, tool calls and their
 results, the parts of a provider stream and of a text stream, and content.
 Fields that no modelled code reads are left out.
 */
module Content {
  import opened Wrappers

  datatype Json =
    | Null
    | Bool(b: bool)
    | Number(literal: string)
    | Str(text: string)
    | Arr(items: seq<Json>)
    | Obj(fields: map<string, Json>)

  /** Provider metadata and options: an object per provider. */
  type Metadata = Option<map<string, map<string, Json>>>

  datatype AiError =
    | NoSuchTool(toolName: string, toolInput: Option<string>, availableTools: Option<seq<string>>)
    | InvalidToolInput(toolName: string, input: string, reason: string)
    | ToolCallRepair(original: AiError, cause: AiError)
    | MissingToolResults(toolCallIds: seq<string>)
    | ToolCallNotFoundForApproval(toolCallId: string, approvalId: string)
    | ToolChoiceViolation
    | InvalidArgument(message: string)
    | InvalidPrompt(message: string)
    | JsonParse(message: string)
    | InvalidResponseData(message: string)
    | NoOutputGenerated(message: string)
    | Timeout(message: string)
    | Aborted(message: string)
    | OtherError(message: string)

  /** A malformed frame does not end the stream; any other error does. */
  predicate IsRecoverable(e: AiError) { e.JsonParse? || e.InvalidResponseData? }

  datatype RawToolCall = RawToolCall(id: string, name: string, input: string, providerExecuted: Option<bool>,
                                     dynamic: Option<bool>, metadata: Metadata)

  datatype ToolCall = ToolCall(id: string, name: string, input: Json, providerExecuted: Option<bool>,
                               dynamic: Option<bool>, metadata: Metadata, invalid: Option<bool>, error: Option<AiError>)

  datatype ToolResult = ToolResult(id: string, name: string, result: Json, isError: Option<bool>,
                                   preliminary: Option<bool>, dynamic: Option<bool>, metadata: Metadata)

  datatype TypedToolResult = TypedToolResult(id: string, name: string, input: Option<Json>, output: Json,
                                             providerExecuted: Option<bool>, metadata: Metadata,
                                             dynamic: Option<bool>, preliminary: Option<bool>)

  datatype TypedToolError = TypedToolError(id: string, name: string, input: Option<Json>, error: Json,
                                           providerExecuted: Option<bool>, metadata: Metadata, dynamic: Option<bool>)

  datatype ApprovalRequest = ApprovalRequest(approvalId: string, call: ToolCall, reason: Option<string>,
                                             isAutomatic: Option<bool>, signature: Option<string>,
                                             inputSchemaInput: Option<Json>)

  datatype ApprovalResponse = ApprovalResponse(approvalId: string, call: ToolCall, approved: bool,
                                               reason: Option<string>, providerExecuted: Option<bool>)

  datatype File = File(base64: string, mediaType: string, metadata: Metadata)

  datatype FinishReason = Stop | Length | ContentFilter | ToolCalls | Failed | OtherReason

  // ----- Streams

  /** A part of the provider's stream. */
  datatype StreamPart =
    | StreamStart(warnings: seq<string>)
    | ResponseMetadata(responseId: Option<string>)
    | TextStart(id: string, metadata: Metadata)
    | TextDelta(id: string, delta: string, metadata: Metadata)
    | TextEnd(id: string, metadata: Metadata)
    | ReasoningStart(id: string, metadata: Metadata)
    | ReasoningDelta(id: string, delta: string, metadata: Metadata)
    | ReasoningEnd(id: string, metadata: Metadata)
    | ToolInputStart(id: string, name: string)
    | ToolInputDelta(id: string, delta: string)
    | ToolInputEnd(id: string)
    | Call(call: RawToolCall)
    | ResultPart(result: ToolResult)
    | Approval(approvalId: string, callId: string)
    | FilePart(file: File)
    | ReasoningFilePart(file: File)
    | CustomPart(kind: string, metadata: Metadata)
    | SourcePart(source: string)
    | Raw
    | FinishPart(reason: FinishReason, usage: nat, metadata: Metadata)
    | ErrorPart(error: AiError)

  type Item = Result<StreamPart, AiError>

  /** Only output starts or resets the chunk timers. */
  predicate IsOutput(p: StreamPart) {
    match p
    case TextDelta(_, delta, _) => delta != ""
    case ReasoningDelta(_, delta, _) => delta != ""
    case ToolInputDelta(_, delta) => delta != ""
    case Call(_) => true
    case FilePart(_) => true
    case ReasoningFilePart(_) => true
    case _ => false
  }

  predicate IsTerminal(item: Item) {
    (item.Ok? && item.value.FinishPart?) || (item.Err? && !IsRecoverable(item.error))
  }

  /** A part of the stream the caller sees. */
  datatype TextPart =
    | Start
    | StartStep(warnings: seq<string>)
    | OutTextStart(id: string, metadata: Metadata)
    | OutTextDelta(id: string, text: string, metadata: Metadata)
    | OutTextEnd(id: string, metadata: Metadata)
    | OutReasoningStart(id: string, metadata: Metadata)
    | OutReasoningDelta(id: string, text: string, metadata: Metadata)
    | OutReasoningEnd(id: string, metadata: Metadata)
    | OutToolInput
    | OutCall(call: ToolCall)
    | OutResult(result: TypedToolResult)
    | OutToolError(failure: TypedToolError)
    | OutApproval(approval: ApprovalRequest)
    | OutApprovalResponse(response: ApprovalResponse)
    | OutFile(file: File)
    | OutReasoningFile(file: File)
    | OutCustom(kind: string, metadata: Metadata)
    | OutSource(source: string)
    | OutRaw
    | OutError(error: AiError)
    | Abort(message: string)
    | FinishStep(reason: FinishReason, usage: nat)
    | Finish(reason: FinishReason, totalUsage: nat)

  type Event = Result<TextPart, AiError>

  // ----- Content

  datatype Part =
    | Text(text: string, metadata: Metadata)
    | Reasoning(text: string, metadata: Metadata)
    | Custom(kind: string, metadata: Metadata)
    | ReasoningFile(file: File)
    | Source(source: string)
    | FileContent(file: File)
    | CallContent(call: ToolCall)
    | ResultContent(result: TypedToolResult)
    | ErrorContent(error: TypedToolError)
    | ApprovalContent(approval: ApprovalRequest)
    | ApprovalResponseContent(response: ApprovalResponse)

  predicate IsTrue(flag: Option<bool>) { flag == Some(true) }

  /** The displayed text of an error; its wording is not modelled. */
  function Display(e: AiError): string {
    match e
    case NoSuchTool(name, _, _) => "Model tried to call unavailable tool '" + name + "'."
    case InvalidToolInput(name, _, reason) => "Invalid input for tool " + name + ": " + reason
    case ToolCallRepair(_, cause) => "Error repairing tool call: " + Display(cause)
    case InvalidArgument(message) => message
    case JsonParse(message) => message
    case InvalidResponseData(message) => message
    case NoOutputGenerated(message) => message
    case Timeout(message) => message
    case Aborted(message) => message
    case OtherError(message) => message
    case _ => "error"
  }

  /** The tool error that follows a client call that could not be parsed. */
  function InvalidCallError(call: ToolCall): Option<TypedToolError> {
    if IsTrue(call.invalid) && !IsTrue(call.providerExecuted) then
      Some(TypedToolError(call.id, call.name, Some(call.input),
                          Str(if call.error.Some? then Display(call.error.value) else "unknown error"),
                          None, None, Some(true)))
    else None
  }
}
