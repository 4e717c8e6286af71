/**
 The consumer of a text stream, which frames the step and parses its parts, and
 `consume`, which folds the framed stream back into the step's content.
 */
module TextStream {
  import opened Wrappers
  import opened Content
  import opened ResponseMessages

  // ----- The consumer

  datatype ToolChoice = AnyChoice | Required | Named(name: string)

  /** What parsing gives when the item is a call, and resolving when it is a file. */
  datatype Answers = Answers(call: ToolCall, file: Result<File, AiError>)

  /** What the consumer sees when it waits: an item of the channel or the caller's abort. */
  datatype Delivery = Got(item: Item, answers: Answers) | AbortSeen(message: string)

  datatype Consumer = Consumer(
    started: bool, warnings: seq<string>, terminal: bool, sawOutput: bool, reason: FinishReason, usage: nat,
    calls: map<string, ToolCall>, activeText: set<string>, activeReasoning: set<string>)

  const NEW_CONSUMER: Consumer := Consumer(false, [], false, false, OtherReason, 0, map[], {}, {})

  /** The consumer, what it has yielded, and whether it has returned. */
  datatype Run = Run(con: Consumer, out: seq<Event>, done: bool)

  predicate Violates(choice: ToolChoice, calls: map<string, ToolCall>) {
    match choice
    case AnyChoice => false
    case Required => calls == map[]
    case Named(name) => forall id :: id in calls ==> calls[id].name != name
  }

  /** A provider's tool result, with the input of the call it answers. */
  function ProviderResultPart(r: ToolResult, calls: map<string, ToolCall>): TextPart {
    var input := if r.id in calls then Some(calls[r.id].input) else None;
    if IsTrue(r.isError)
    then OutToolError(TypedToolError(r.id, r.name, input, r.result, Some(true), r.metadata, r.dynamic))
    else OutResult(TypedToolResult(r.id, r.name, input, r.result, Some(true), r.metadata, r.dynamic, r.preliminary))
  }

  function FileEvent(resolved: Result<File, AiError>, reasoning: bool): Event {
    match resolved
    case Ok(f) => Ok(if reasoning then OutReasoningFile(f) else OutFile(f))
    case Err(e) => Ok(OutError(e))
  }

  function MissingText(id: string): Event { Ok(OutError(OtherError("text part " + id + " not found"))) }

  function MissingReasoning(id: string): Event { Ok(OutError(OtherError("reasoning part " + id + " not found"))) }

  /** A part that opens the step comes after the step's start. */
  function Opened(con: Consumer, part: StreamPart): (Consumer, seq<Event>) {
    if part.StreamStart? then (con, [])
    else
      (con.(started := true, sawOutput := con.sawOutput || IsOutput(part)),
       if con.started then [] else [Ok(StartStep(con.warnings))])
  }

  /** What a part yields once the step is open. */
  function Handle(choice: ToolChoice, a: Answers, con: Consumer, part: StreamPart): (Consumer, seq<Event>) {
    match part
    case StreamStart(warnings) => (con.(warnings := warnings), [])
    case ResponseMetadata(_) => (con, [])
    case Call(_) =>
      var call := a.call;
      var failure := InvalidCallError(call);
      (con.(calls := con.calls[call.id := call]),
       [Ok(OutCall(call))] + if failure.Some? then [Ok(OutToolError(failure.value))] else [])
    case FilePart(_) => (con, [FileEvent(a.file, false)])
    case ReasoningFilePart(_) => (con, [FileEvent(a.file, true)])
    case Approval(approvalId, callId) =>
      (con, [Ok(if callId in con.calls
                then OutApproval(ApprovalRequest(approvalId, con.calls[callId], None, None, None, None))
                else OutError(ToolCallNotFoundForApproval(callId, approvalId)))])
    case FinishPart(reason, usage, _) =>
      var violated := Violates(choice, con.calls);
      (con.(terminal := true, reason := if violated then Failed else reason, usage := usage),
       if violated then [Ok(OutError(ToolChoiceViolation))] else [])
    case ErrorPart(error) => (con.(terminal := true, reason := Failed), [Ok(OutError(error))])
    case ResultPart(r) => (con, [Ok(ProviderResultPart(r, con.calls))])
    case TextStart(id, metadata) => (con.(activeText := con.activeText + {id}), [Ok(OutTextStart(id, metadata))])
    case TextDelta(id, delta, metadata) =>
      if delta == "" && metadata.None? then (con, [])
      else (con, [Ok(OutTextDelta(id, delta, metadata))] + if id in con.activeText then [] else [MissingText(id)])
    case TextEnd(id, metadata) =>
      (con.(activeText := con.activeText - {id}),
       [Ok(OutTextEnd(id, metadata))] + if id in con.activeText then [] else [MissingText(id)])
    case ReasoningStart(id, metadata) =>
      (con.(activeReasoning := con.activeReasoning + {id}), [Ok(OutReasoningStart(id, metadata))])
    case ReasoningDelta(id, delta, metadata) =>
      (con, [Ok(OutReasoningDelta(id, delta, metadata))] + if id in con.activeReasoning then [] else [MissingReasoning(id)])
    case ReasoningEnd(id, metadata) =>
      (con.(activeReasoning := con.activeReasoning - {id}),
       [Ok(OutReasoningEnd(id, metadata))] + if id in con.activeReasoning then [] else [MissingReasoning(id)])
    case ToolInputStart(_, _) => (con, [Ok(OutToolInput)])
    case ToolInputDelta(_, _) => (con, [Ok(OutToolInput)])
    case ToolInputEnd(_) => (con, [Ok(OutToolInput)])
    case CustomPart(kind, metadata) => (con, [Ok(OutCustom(kind, metadata))])
    case SourcePart(source) => (con, [Ok(OutSource(source))])
    case Raw => (con, [Ok(OutRaw)])
  }

  function Deliver(choice: ToolChoice, r: Run, d: Delivery): Run {
    if r.done then r
    else
      match d
      case AbortSeen(message) => Run(r.con, r.out + [Ok(Abort(message))], true)
      case Got(Err(error), _) => Run(r.con, r.out + [Err(error)], !IsRecoverable(error))
      case Got(Ok(part), a) =>
        var (opened', start) := Opened(r.con, part);
        var (con, events) := Handle(choice, a, opened', part);
        Run(con, r.out + start + events, false)
  }

  function AfterDeliveries(choice: ToolChoice, ds: seq<Delivery>, n: nat): Run
    requires n <= |ds|
  {
    if n == 0 then Run(NEW_CONSUMER, [Ok(Start)], false) else Deliver(choice, AfterDeliveries(choice, ds, n - 1), ds[n - 1])
  }

  const NO_OUTPUT: AiError := NoOutputGenerated("No output generated. The model stream ended without a finish chunk.")

  /** The end of the channel. */
  function EndOfStream(con: Consumer): seq<Event> {
    if !con.terminal && !con.sawOutput then [Ok(OutError(NO_OUTPUT))]
    else [Ok(FinishStep(con.reason, con.usage)), Ok(Finish(con.reason, con.usage))]
  }

  /** The text stream of a run in which these were delivered before the channel closed. */
  function Stream(choice: ToolChoice, ds: seq<Delivery>): seq<Event> {
    var r := AfterDeliveries(choice, ds, |ds|);
    if r.done then r.out else r.out + EndOfStream(r.con)
  }

  method ProduceStream(choice: ToolChoice, ds: seq<Delivery>) returns (out: seq<Event>)
    ensures out == Stream(choice, ds)
  {
    hide Handle, IsOutput;
    var con := NEW_CONSUMER;
    out := [Ok(Start)];
    for n := 0 to |ds|
      invariant AfterDeliveries(choice, ds, n) == Run(con, out, false)
    {
      match ds[n] {
      case AbortSeen(message) =>
        out := out + [Ok(Abort(message))];
        DoneStays(choice, ds, n + 1);
        return;
      case Got(Err(error), _) =>
        out := out + [Err(error)];
        if !IsRecoverable(error) {
          DoneStays(choice, ds, n + 1);
          return;
        }
      case Got(Ok(part), a) =>
        if !part.StreamStart? {
          if !con.started {
            out := out + [Ok(StartStep(con.warnings))];
          }
          con := con.(started := true, sawOutput := con.sawOutput || IsOutput(part));
        }
        var (next, events) := Handle(choice, a, con, part);
        con, out := next, out + events;
      }
    }
    if !con.terminal && !con.sawOutput {
      out := out + [Ok(OutError(NO_OUTPUT))];
      return;
    }
    out := out + [Ok(FinishStep(con.reason, con.usage)), Ok(Finish(con.reason, con.usage))];
  }

  lemma {:induction false} DoneStays(choice: ToolChoice, ds: seq<Delivery>, n: nat)
    requires n <= |ds| && AfterDeliveries(choice, ds, n).done
    ensures AfterDeliveries(choice, ds, |ds|) == AfterDeliveries(choice, ds, n)
    decreases |ds| - n
  {
    if n < |ds| { DoneStays(choice, ds, n + 1); }
  }

  // ----- `consume`

  datatype StepRecord = StepRecord(content: seq<Part>, messages: seq<Message>, reason: FinishReason, warnings: seq<string>)

  datatype Consumed = Consumed(steps: seq<StepRecord>, totalUsage: nat)

  /** What `consume` has gathered; `stopped` once it reads no further. */
  datatype Gathered = Gathered(
    steps: seq<StepRecord>, builder: Builder, warnings: seq<string>, totalUsage: Option<nat>,
    aborted: Option<AiError>, firstError: Option<AiError>, failed: Option<AiError>, stopped: bool)

  const NOTHING_GATHERED: Gathered := Gathered([], EMPTY_BUILDER, [], None, None, None, None, false)

  function Noted(g: Gathered, e: AiError): Gathered { if g.firstError.Some? then g else g.(firstError := Some(e)) }

  /** How a part changes the content of the step. */
  function Record(b: Builder, p: TextPart): Builder {
    match p
    case StartStep(_) => EMPTY_BUILDER
    case OutTextStart(id, metadata) => StartText(b, id, metadata)
    case OutTextDelta(id, text, metadata) => AddText(b, id, text, metadata)
    case OutTextEnd(id, metadata) => EndText(b, id, metadata)
    case OutReasoningStart(id, metadata) => StartReasoning(b, id, metadata)
    case OutReasoningDelta(id, text, metadata) => AddReasoning(b, id, text, metadata)
    case OutReasoningEnd(id, metadata) => EndReasoning(b, id, metadata)
    case OutCall(call) => Push(b, CallContent(call))
    case OutResult(result) => AddTypedResult(b, result)
    case OutToolError(failure) => Push(b, ErrorContent(failure))
    case OutApprovalResponse(response) => Push(b, ApprovalResponseContent(response))
    case OutSource(source) => Push(b, Source(source))
    case OutFile(file) => Push(b, FileContent(file))
    case OutReasoningFile(file) => Push(b, ReasoningFile(file))
    case OutCustom(kind, metadata) => Push(b, Custom(kind, metadata))
    case OutApproval(approval) => Push(b, ApprovalContent(approval))
    case FinishStep(_, _) => EMPTY_BUILDER
    case _ => b
  }

  function Gather(g: Gathered, e: Event): Gathered {
    if g.stopped then g
    else
      match e
      case Err(error) => if IsRecoverable(error) then Noted(g, error) else g.(failed := Some(error), stopped := true)
      case Ok(Finish(_, usage)) => g.(totalUsage := Some(usage), stopped := true)
      case Ok(Abort(message)) => g.(aborted := Some(Aborted(message)), stopped := true)
      case Ok(OutError(error)) => Noted(g, error)
      case Ok(FinishStep(reason, _)) =>
        g.(steps := g.steps + [StepRecord(g.builder.content, Messages(g.builder.content), reason, g.warnings)],
           builder := EMPTY_BUILDER, warnings := [])
      case Ok(StartStep(warnings)) => g.(builder := EMPTY_BUILDER, warnings := warnings)
      case Ok(part) => g.(builder := Record(g.builder, part))
  }

  function GatherAll(events: seq<Event>, n: nat): Gathered
    requires n <= |events|
  {
    if n == 0 then NOTHING_GATHERED else Gather(GatherAll(events, n - 1), events[n - 1])
  }

  function Conclude(g: Gathered): Result<Consumed, AiError> {
    if g.failed.Some? then Err(g.failed.value)
    else if g.firstError.Some? then Err(g.firstError.value)
    else if g.steps == [] then
      Err(if g.aborted.Some? then g.aborted.value
          else NoOutputGenerated("No output generated. Check the stream for errors."))
    else Ok(Consumed(g.steps, if g.totalUsage.Some? then g.totalUsage.value else 0))
  }

  function ConsumeSpec(events: seq<Event>): Result<Consumed, AiError> { Conclude(GatherAll(events, |events|)) }

  lemma {:induction false} StoppedStays(events: seq<Event>, n: nat)
    requires n <= |events| && GatherAll(events, n).stopped
    ensures GatherAll(events, |events|) == GatherAll(events, n)
    decreases |events| - n
  {
    if n < |events| { StoppedStays(events, n + 1); }
  }

  method Apply(rm: ResponseMessageBuilder, p: TextPart)
    requires !p.StartStep? && !p.FinishStep?
    modifies rm
    ensures rm.View() == Record(old(rm.View()), p)
  {
    hide AddText, AddReasoning, EndText, EndReasoning, StartText, StartReasoning;
    match p
    case OutTextStart(id, metadata) => rm.TextStart(id, metadata);
    case OutTextDelta(id, text, metadata) => rm.TextDelta(id, text, metadata);
    case OutTextEnd(id, metadata) => rm.TextEnd(id, metadata);
    case OutReasoningStart(id, metadata) => rm.ReasoningStart(id, metadata);
    case OutReasoningDelta(id, text, metadata) => rm.ReasoningDelta(id, text, metadata);
    case OutReasoningEnd(id, metadata) => rm.ReasoningEnd(id, metadata);
    case OutCall(call) => rm.Add(CallContent(call));
    case OutResult(result) => rm.AddStreamedResult(result);
    case OutToolError(failure) => rm.Add(ErrorContent(failure));
    case OutApprovalResponse(response) => rm.Add(ApprovalResponseContent(response));
    case OutSource(source) => rm.Add(Source(source));
    case OutFile(file) => rm.Add(FileContent(file));
    case OutReasoningFile(file) => rm.Add(ReasoningFile(file));
    case OutCustom(kind, metadata) => rm.Add(Custom(kind, metadata));
    case OutApproval(approval) => rm.Add(ApprovalContent(approval));
    case _ =>
  }

  method Consume(events: seq<Event>) returns (result: Result<Consumed, AiError>)
    ensures result == ConsumeSpec(events)
  {
    hide Record, Messages;
    var steps: seq<StepRecord>, warnings: seq<string>, totalUsage: Option<nat> := [], [], None;
    var aborted: Option<AiError>, firstError: Option<AiError> := None, None;
    var rm := new ResponseMessageBuilder();
    var n := 0;
    var stopped := false;
    while n < |events| && !stopped
      invariant n <= |events|
      invariant fresh(rm)
      invariant GatherAll(events, n) == Gathered(steps, rm.View(), warnings, totalUsage, aborted, firstError, None, stopped)
    {
      var event := events[n];
      n := n + 1;
      match event {
      case Err(error) =>
        if !IsRecoverable(error) {
          StoppedStays(events, n);
          return Err(error);
        }
        if firstError.None? { firstError := Some(error); }
      case Ok(StartStep(w)) =>
        rm := new ResponseMessageBuilder();
        warnings := w;
      case Ok(FinishStep(reason, _)) =>
        var messages := rm.BuildMessages();
        steps := steps + [StepRecord(rm.content, messages, reason, warnings)];
        rm := new ResponseMessageBuilder();
        warnings := [];
      case Ok(Finish(_, usage)) => totalUsage, stopped := Some(usage), true;
      case Ok(Abort(message)) => aborted, stopped := Some(Aborted(message)), true;
      case Ok(OutError(error)) => if firstError.None? { firstError := Some(error); }
      case Ok(part) => Apply(rm, part);
      }
    }
    if stopped { StoppedStays(events, n); }
    if firstError.Some? { return Err(firstError.value); }
    if steps == [] {
      return Err(if aborted.Some? then aborted.value
                 else NoOutputGenerated("No output generated. Check the stream for errors."));
    }
    result := Ok(Consumed(steps, if totalUsage.Some? then totalUsage.value else 0));
  }
}
