/**
 What the text stream says of what was delivered, by the places of the
 deliveries alone: what each part is shown as, and how the stream closes.
 */
module StreamOutcome {
  import opened Wrappers
  import opened Content
  import opened TextStream
  import Pump = StreamPump

  // ----- What was delivered before a place

  predicate IsPart(d: Delivery) { d.Got? && d.item.Ok? }

  /** A delivery after which the stream goes on: a part, or a malformed frame. */
  predicate GoesOn(d: Delivery) { d.Got? && (d.item.Ok? || d.item.error.JsonParse? || d.item.error.InvalidResponseData?) }

  ghost predicate IsFirstEnd(ds: seq<Delivery>, m: nat) {
    && m <= |ds| && (forall i :: 0 <= i < m ==> GoesOn(ds[i])) && (m < |ds| ==> !GoesOn(ds[m]))
  }

  /** The step is open: a part other than the start of the model call came. */
  predicate IsOpen(ds: seq<Delivery>, n: nat)
    requires n <= |ds|
  {
    exists k :: 0 <= k < n && IsPart(ds[k]) && !ds[k].item.value.StreamStart?
  }

  /** The warnings of the last start of the model call. */
  function WarningsBefore(ds: seq<Delivery>, n: nat): seq<string>
    requires n <= |ds|
  {
    if n == 0 then []
    else if IsPart(ds[n - 1]) && ds[n - 1].item.value.StreamStart? then ds[n - 1].item.value.warnings
    else WarningsBefore(ds, n - 1)
  }

  predicate IsCall(d: Delivery) { IsPart(d) && d.item.value.Call? }

  /** The last parsed call of an id. */
  function LastCall(ds: seq<Delivery>, n: nat, id: string): Option<ToolCall>
    requires n <= |ds|
  {
    if n == 0 then None
    else if IsCall(ds[n - 1]) && ds[n - 1].answers.call.id == id then Some(ds[n - 1].answers.call)
    else LastCall(ds, n - 1, id)
  }

  function InputOf(call: Option<ToolCall>): Option<Json> { if call.Some? then Some(call.value.input) else None }

  /** A text (or reasoning) block of the id was started and has not ended. */
  predicate IsTextOpen(ds: seq<Delivery>, n: nat, id: string)
    requires n <= |ds|
  {
    if n == 0 then false
    else if IsPart(ds[n - 1]) && ds[n - 1].item.value.TextStart? && ds[n - 1].item.value.id == id then true
    else if IsPart(ds[n - 1]) && ds[n - 1].item.value.TextEnd? && ds[n - 1].item.value.id == id then false
    else IsTextOpen(ds, n - 1, id)
  }

  predicate IsReasoningOpen(ds: seq<Delivery>, n: nat, id: string)
    requires n <= |ds|
  {
    if n == 0 then false
    else if IsPart(ds[n - 1]) && ds[n - 1].item.value.ReasoningStart? && ds[n - 1].item.value.id == id then true
    else if IsPart(ds[n - 1]) && ds[n - 1].item.value.ReasoningEnd? && ds[n - 1].item.value.id == id then false
    else IsReasoningOpen(ds, n - 1, id)
  }

  /** The required tool, or any tool, was not called before `n`. */
  ghost predicate IsChoiceUnmet(choice: ToolChoice, ds: seq<Delivery>, n: nat)
    requires n <= |ds|
  {
    match choice
    case AnyChoice => false
    case Required => forall k :: 0 <= k < n ==> !IsCall(ds[k])
    case Named(name) => forall id :: LastCall(ds, n, id).Some? ==> LastCall(ds, n, id).value.name != name
  }

  // ----- What a part is shown as

  /** A part of a block that is not open is followed by an error. */
  predicate AreOfBlock(shown: seq<TextPart>, p: TextPart, isOpen: bool) {
    |shown| > 0 && shown[0] == p &&
    if isOpen then |shown| == 1 else |shown| == 2 && shown[1].OutError? && shown[1].error.OtherError?
  }

  /** A tool result of the provider: the tool error when it is marked as one, the
      tool result otherwise, with the input of the last call of its id. */
  predicate IsShownResult(p: TextPart, r: ToolResult, input: Option<Json>) {
    if r.isError == Some(true) then
      && p.OutToolError? && p.failure.id == r.id && p.failure.name == r.name && p.failure.error == r.result
      && p.failure.input == input && p.failure.providerExecuted == Some(true)
      && p.failure.metadata == r.metadata && p.failure.dynamic == r.dynamic
    else
      && p.OutResult? && p.result.id == r.id && p.result.name == r.name && p.result.output == r.result
      && p.result.input == input && p.result.providerExecuted == Some(true)
      && p.result.metadata == r.metadata && p.result.dynamic == r.dynamic && p.result.preliminary == r.preliminary
  }

  /** A call, followed by its tool error when the client cannot run it. */
  predicate AreOfCall(shown: seq<TextPart>, call: ToolCall) {
    |shown| > 0 && shown[0] == OutCall(call) &&
    if call.invalid == Some(true) && call.providerExecuted != Some(true) then
      && |shown| == 2 && shown[1].OutToolError? && shown[1].failure.id == call.id && shown[1].failure.name == call.name
      && shown[1].failure.input == Some(call.input) && shown[1].failure.dynamic == Some(true)
      && shown[1].failure.providerExecuted.None? && shown[1].failure.metadata.None?
      && shown[1].failure.error == Str(if call.error.Some? then Display(call.error.value) else "unknown error")
    else |shown| == 1
  }

  /** What the part delivered at `n` is shown as. */
  ghost predicate Shows(choice: ToolChoice, ds: seq<Delivery>, n: nat, shown: seq<TextPart>)
    requires n < |ds| && IsPart(ds[n])
  {
    match ds[n].item.value
    case StreamStart(_) => shown == []
    case ResponseMetadata(_) => shown == []
    case TextStart(id, metadata) => shown == [OutTextStart(id, metadata)]
    case TextDelta(id, delta, metadata) =>
      if delta == "" && metadata.None? then shown == []
      else AreOfBlock(shown, OutTextDelta(id, delta, metadata), IsTextOpen(ds, n, id))
    case TextEnd(id, metadata) => AreOfBlock(shown, OutTextEnd(id, metadata), IsTextOpen(ds, n, id))
    case ReasoningStart(id, metadata) => shown == [OutReasoningStart(id, metadata)]
    case ReasoningDelta(id, delta, metadata) =>
      AreOfBlock(shown, OutReasoningDelta(id, delta, metadata), IsReasoningOpen(ds, n, id))
    case ReasoningEnd(id, metadata) => AreOfBlock(shown, OutReasoningEnd(id, metadata), IsReasoningOpen(ds, n, id))
    case ToolInputStart(_, _) => shown == [OutToolInput]
    case ToolInputDelta(_, _) => shown == [OutToolInput]
    case ToolInputEnd(_) => shown == [OutToolInput]
    case Call(_) => AreOfCall(shown, ds[n].answers.call)
    case ResultPart(r) => |shown| == 1 && IsShownResult(shown[0], r, InputOf(LastCall(ds, n, r.id)))
    case Approval(approvalId, callId) =>
      |shown| == 1 &&
      if LastCall(ds, n, callId).Some? then
        && shown[0].OutApproval? && shown[0].approval.approvalId == approvalId
        && shown[0].approval.call == LastCall(ds, n, callId).value
        && shown[0].approval.reason.None? && shown[0].approval.isAutomatic.None? && shown[0].approval.signature.None?
        && shown[0].approval.inputSchemaInput.None?
      else shown[0] == OutError(ToolCallNotFoundForApproval(callId, approvalId))
    case FilePart(_) =>
      |shown| == 1 && if ds[n].answers.file.Ok? then shown[0] == OutFile(ds[n].answers.file.value)
                      else shown[0] == OutError(ds[n].answers.file.error)
    case ReasoningFilePart(_) =>
      |shown| == 1 && if ds[n].answers.file.Ok? then shown[0] == OutReasoningFile(ds[n].answers.file.value)
                      else shown[0] == OutError(ds[n].answers.file.error)
    case CustomPart(kind, metadata) => shown == [OutCustom(kind, metadata)]
    case SourcePart(source) => shown == [OutSource(source)]
    case Raw => shown == [OutRaw]
    case FinishPart(_, _, _) =>
      if IsChoiceUnmet(choice, ds, n) then shown == [OutError(ToolChoiceViolation)] else shown == []
    case ErrorPart(error) => shown == [OutError(error)]
  }

  function Oks(parts: seq<TextPart>): (events: seq<Event>)
    ensures |events| == |parts| && forall i :: 0 <= i < |events| ==> events[i] == Ok(parts[i])
  {
    seq(|parts|, i requires 0 <= i < |parts| => Ok(parts[i]))
  }

  /** The start of the step, with the warnings so far, before its first part. */
  function StepStart(ds: seq<Delivery>, n: nat): seq<Event>
    requires n < |ds|
  {
    if IsOpen(ds, n) || (IsPart(ds[n]) && ds[n].item.value.StreamStart?) then [] else [Ok(StartStep(WarningsBefore(ds, n)))]
  }

  /** The stream with the delivery at `n`. */
  ghost predicate Extends(choice: ToolChoice, ds: seq<Delivery>, n: nat, out: seq<Event>, out': seq<Event>)
    requires n < |ds| && GoesOn(ds[n])
  {
    match ds[n].item
    case Err(error) => out' == out + [Err(error)]
    case Ok(_) => exists shown: seq<TextPart> :: Shows(choice, ds, n, shown) && out' == out + StepStart(ds, n) + Oks(shown)
  }

  // ----- How the stream closes

  /** Nothing but the reason and usage of the last finish; an error part, or a
      finish without the tool that was asked for, makes the step fail. */
  ghost function ReasonOf(choice: ToolChoice, ds: seq<Delivery>, n: nat): FinishReason
    requires n <= |ds|
  {
    if n == 0 then OtherReason
    else if IsPart(ds[n - 1]) && ds[n - 1].item.value.ErrorPart? then Failed
    else if IsPart(ds[n - 1]) && ds[n - 1].item.value.FinishPart? then
      if IsChoiceUnmet(choice, ds, n - 1) then Failed else ds[n - 1].item.value.reason
    else ReasonOf(choice, ds, n - 1)
  }

  function UsageOf(ds: seq<Delivery>, n: nat): nat
    requires n <= |ds|
  {
    if n == 0 then 0
    else if IsPart(ds[n - 1]) && ds[n - 1].item.value.FinishPart? then ds[n - 1].item.value.usage
    else UsageOf(ds, n - 1)
  }

  /** Something came that makes a step: output, a finish, or an error part. */
  predicate HasStep(ds: seq<Delivery>, n: nat)
    requires n <= |ds|
  {
    exists k :: 0 <= k < n && IsPart(ds[k]) &&
      (Pump.GivesOutput(ds[k].item) || ds[k].item.value.FinishPart? || ds[k].item.value.ErrorPart?)
  }

  /** The last events: those of the abort or error that ended it, or the end of
      the step, or that there was none. */
  ghost predicate Closes(choice: ToolChoice, ds: seq<Delivery>, m: nat, closing: seq<Event>)
    requires m <= |ds|
  {
    if m < |ds| then
      match ds[m]
      case AbortSeen(message) => closing == [Ok(Abort(message))]
      case Got(item, _) => item.Err? && closing == [Err(item.error)]
    else if !HasStep(ds, m) then
      |closing| == 1 && closing[0].Ok? && closing[0].value.OutError? && closing[0].value.error.NoOutputGenerated?
    else
      closing == [Ok(FinishStep(ReasonOf(choice, ds, m), UsageOf(ds, m))), Ok(Finish(ReasonOf(choice, ds, m), UsageOf(ds, m)))]
  }

  // ----- The consumer keeps what was delivered

  ghost predicate AreLastCalls(calls: map<string, ToolCall>, ds: seq<Delivery>, n: nat)
    requires n <= |ds|
  {
    forall id :: Found(calls, id) == LastCall(ds, n, id)
  }

  function Found(calls: map<string, ToolCall>, id: string): Option<ToolCall> {
    if id in calls then Some(calls[id]) else None
  }

  ghost predicate Remembers(choice: ToolChoice, ds: seq<Delivery>, n: nat, con: Consumer)
    requires n <= |ds|
  {
    && con.started == IsOpen(ds, n) && con.warnings == WarningsBefore(ds, n)
    && AreLastCalls(con.calls, ds, n)
    && (forall id :: id in con.activeText <==> IsTextOpen(ds, n, id))
    && (forall id :: id in con.activeReasoning <==> IsReasoningOpen(ds, n, id))
    && (con.terminal || con.sawOutput <==> HasStep(ds, n))
    && con.reason == ReasonOf(choice, ds, n) && con.usage == UsageOf(ds, n)
  }

  /** With any call there is a last one of its id. */
  lemma {:induction false} CallIsFound(ds: seq<Delivery>, n: nat, k: nat)
    requires k < n <= |ds| && IsCall(ds[k])
    ensures LastCall(ds, n, ds[k].answers.call.id).Some?
  {
    if k < n - 1 { CallIsFound(ds, n - 1, k); }
  }

  lemma {:induction false} FoundIsCall(ds: seq<Delivery>, n: nat, id: string) returns (k: nat)
    requires n <= |ds| && LastCall(ds, n, id).Some?
    ensures k < n && IsCall(ds[k])
  {
    if IsCall(ds[n - 1]) && ds[n - 1].answers.call.id == id { k := n - 1; } else { k := FoundIsCall(ds, n - 1, id); }
  }

  lemma {:induction false} ViolatesIsUnmet(choice: ToolChoice, ds: seq<Delivery>, n: nat, calls: map<string, ToolCall>)
    requires n <= |ds| && AreLastCalls(calls, ds, n)
    ensures Violates(choice, calls) <==> IsChoiceUnmet(choice, ds, n)
  {
    match choice
    case AnyChoice =>
    case Required =>
      if Violates(choice, calls) {
        assert forall id :: Found(calls, id).None? && LastCall(ds, n, id).None?;
        forall k | 0 <= k < n ensures !IsCall(ds[k]) {
          if IsCall(ds[k]) { CallIsFound(ds, n, k); }
        }
      } else {
        var id :| id in calls;
        assert Found(calls, id).Some?;
        var k := FoundIsCall(ds, n, id);
      }
    case Named(name) =>
      if Violates(choice, calls) {
        forall id | LastCall(ds, n, id).Some? ensures LastCall(ds, n, id).value.name != name {
          assert Found(calls, id) == LastCall(ds, n, id);
        }
      }
      if IsChoiceUnmet(choice, ds, n) {
        forall id | id in calls ensures calls[id].name != name { assert LastCall(ds, n, id) == Found(calls, id); }
      }
  }

  // ----- One delivery

  lemma {:induction false} OpenNext(ds: seq<Delivery>, n: nat)
    requires n < |ds|
    ensures IsOpen(ds, n + 1) <==> IsOpen(ds, n) || (IsPart(ds[n]) && !ds[n].item.value.StreamStart?)
    ensures HasStep(ds, n + 1) <==>
      HasStep(ds, n) || (IsPart(ds[n]) && (Pump.GivesOutput(ds[n].item) || ds[n].item.value.FinishPart? || ds[n].item.value.ErrorPart?))
  {
    if IsOpen(ds, n + 1) {
      var k :| 0 <= k < n + 1 && IsPart(ds[k]) && !ds[k].item.value.StreamStart?;
    }
    if HasStep(ds, n + 1) {
      var k :| 0 <= k < n + 1 && IsPart(ds[k]) &&
        (Pump.GivesOutput(ds[k].item) || ds[k].item.value.FinishPart? || ds[k].item.value.ErrorPart?);
    }
  }

  /** A malformed frame leaves the consumer as it is. */
  lemma {:induction false} FrameKeeps(choice: ToolChoice, ds: seq<Delivery>, n: nat, con: Consumer)
    requires n < |ds| && Remembers(choice, ds, n, con) && !IsPart(ds[n])
    ensures Remembers(choice, ds, n + 1, con)
  {
    OpenNext(ds, n);
    assert !IsCall(ds[n]);
    forall id ensures Found(con.calls, id) == LastCall(ds, n + 1, id) { assert Found(con.calls, id) == LastCall(ds, n, id); }
    forall id ensures id in con.activeText <==> IsTextOpen(ds, n + 1, id) { }
    forall id ensures id in con.activeReasoning <==> IsReasoningOpen(ds, n + 1, id) { }
  }

  function Next(choice: ToolChoice, con: Consumer, d: Delivery): (Consumer, seq<Event>)
    requires IsPart(d)
  {
    Handle(choice, d.answers, Opened(con, d.item.value).0, d.item.value)
  }

  lemma {:induction false} PartKeepsCalls(choice: ToolChoice, ds: seq<Delivery>, n: nat, con: Consumer)
    requires n < |ds| && AreLastCalls(con.calls, ds, n) && IsPart(ds[n])
    ensures AreLastCalls(Next(choice, con, ds[n]).0.calls, ds, n + 1)
  {
    var calls' := Next(choice, con, ds[n]).0.calls;
    assert calls' == if IsCall(ds[n]) then con.calls[ds[n].answers.call.id := ds[n].answers.call] else con.calls;
    forall id ensures Found(calls', id) == LastCall(ds, n + 1, id) { assert Found(con.calls, id) == LastCall(ds, n, id); }
  }

  lemma {:induction false} PartKeepsBlocks(choice: ToolChoice, ds: seq<Delivery>, n: nat, con: Consumer)
    requires n < |ds| && Remembers(choice, ds, n, con) && IsPart(ds[n])
    ensures forall id :: id in Next(choice, con, ds[n]).0.activeText <==> IsTextOpen(ds, n + 1, id)
    ensures forall id :: id in Next(choice, con, ds[n]).0.activeReasoning <==> IsReasoningOpen(ds, n + 1, id)
  {
    hide IsChoiceUnmet, HasStep, IsOpen, Pump.GivesOutput, Violates, AreLastCalls, ReasonOf, UsageOf, WarningsBefore, ProviderResultPart;
    var con' := Next(choice, con, ds[n]).0;
    forall id ensures id in con'.activeText <==> IsTextOpen(ds, n + 1, id) { assert id in con.activeText <==> IsTextOpen(ds, n, id); }
    forall id ensures id in con'.activeReasoning <==> IsReasoningOpen(ds, n + 1, id) {
      assert id in con.activeReasoning <==> IsReasoningOpen(ds, n, id);
    }
  }

  lemma {:induction false} PartKeepsEnding(choice: ToolChoice, ds: seq<Delivery>, n: nat, con: Consumer)
    requires n < |ds| && IsPart(ds[n]) && (Violates(choice, con.calls) <==> IsChoiceUnmet(choice, ds, n))
    requires con.reason == ReasonOf(choice, ds, n) && con.usage == UsageOf(ds, n)
    ensures var con' := Next(choice, con, ds[n]).0;
            con'.reason == ReasonOf(choice, ds, n + 1) && con'.usage == UsageOf(ds, n + 1)
  {
    hide IsChoiceUnmet, Violates, ProviderResultPart, IsOutput;
  }

  lemma {:induction false} PartKeepsStart(choice: ToolChoice, ds: seq<Delivery>, n: nat, con: Consumer)
    requires n < |ds| && IsPart(ds[n])
    requires con.started == IsOpen(ds, n) && con.warnings == WarningsBefore(ds, n)
    requires con.terminal || con.sawOutput <==> HasStep(ds, n)
    ensures var con' := Next(choice, con, ds[n]).0;
            && con'.started == IsOpen(ds, n + 1) && con'.warnings == WarningsBefore(ds, n + 1)
            && (con'.terminal || con'.sawOutput <==> HasStep(ds, n + 1))
  {
    OpenNext(ds, n);
    hide Violates, ProviderResultPart, IsOpen, HasStep;
  }

  lemma {:induction false} PartKeeps(choice: ToolChoice, ds: seq<Delivery>, n: nat, con: Consumer)
    requires n < |ds| && Remembers(choice, ds, n, con) && IsPart(ds[n])
    ensures Remembers(choice, ds, n + 1, Next(choice, con, ds[n]).0)
  {
    PartKeepsCalls(choice, ds, n, con);
    PartKeepsBlocks(choice, ds, n, con);
    ViolatesIsUnmet(choice, ds, n, con.calls);
    PartKeepsEnding(choice, ds, n, con);
    PartKeepsStart(choice, ds, n, con);
    hide Next, IsChoiceUnmet, HasStep, IsOpen, Violates, AreLastCalls, IsTextOpen, IsReasoningOpen, ReasonOf, UsageOf, WarningsBefore;
  }

  function Parts(events: seq<Event>): seq<TextPart>
    requires forall i :: 0 <= i < |events| ==> events[i].Ok?
  {
    seq(|events|, i requires 0 <= i < |events| => events[i].value)
  }

  lemma {:induction false} PartsOfFew(events: seq<Event>)
    requires |events| <= 2 && forall i :: 0 <= i < |events| ==> events[i].Ok?
    ensures Oks(Parts(events)) == events
    ensures |events| == 0 ==> Parts(events) == []
    ensures |events| == 1 ==> Parts(events) == [events[0].value]
    ensures |events| == 2 ==> Parts(events) == [events[0].value, events[1].value]
  {
  }

  predicate IsOfBlock(p: StreamPart) {
    p.TextStart? || p.TextDelta? || p.TextEnd? || p.ReasoningStart? || p.ReasoningDelta? || p.ReasoningEnd?
  }

  lemma {:induction false} PartShows(choice: ToolChoice, ds: seq<Delivery>, n: nat, con: Consumer) returns (shown: seq<TextPart>)
    requires n < |ds| && Remembers(choice, ds, n, con) && IsPart(ds[n])
    ensures Shows(choice, ds, n, shown) && Next(choice, con, ds[n]).1 == Oks(shown)
  {
    ViolatesIsUnmet(choice, ds, n, con.calls);
    assert forall id :: Found(con.calls, id) == LastCall(ds, n, id);
    var o := Opened(con, ds[n].item.value).0;
    assert o.calls == con.calls && o.activeText == con.activeText && o.activeReasoning == con.activeReasoning;
    hide AreLastCalls, Violates, IsChoiceUnmet, LastCall, IsTextOpen, IsReasoningOpen, Remembers, Shows, Handle;
    if IsOfBlock(ds[n].item.value) {
      shown := BlockShows(choice, ds, n, o);
    } else {
      shown := OtherShows(choice, ds, n, o);
    }
  }

  lemma {:induction false} BlockShows(choice: ToolChoice, ds: seq<Delivery>, n: nat, o: Consumer) returns (shown: seq<TextPart>)
    requires n < |ds| && IsPart(ds[n]) && IsOfBlock(ds[n].item.value)
    requires forall id :: id in o.activeText <==> IsTextOpen(ds, n, id)
    requires forall id :: id in o.activeReasoning <==> IsReasoningOpen(ds, n, id)
    ensures Shows(choice, ds, n, shown) && Handle(choice, ds[n].answers, o, ds[n].item.value).1 == Oks(shown)
  {
    hide Violates, IsChoiceUnmet, LastCall, IsTextOpen, IsReasoningOpen, Oks, Parts, ProviderResultPart, AreOfCall, IsShownResult;
    var events := Handle(choice, ds[n].answers, o, ds[n].item.value).1;
    assert |events| <= 2 && forall i :: 0 <= i < |events| ==> events[i].Ok?;
    PartsOfFew(events);
    shown := Parts(events);
  }

  lemma {:induction false} OtherShows(choice: ToolChoice, ds: seq<Delivery>, n: nat, o: Consumer) returns (shown: seq<TextPart>)
    requires n < |ds| && IsPart(ds[n]) && !IsOfBlock(ds[n].item.value)
    requires forall id :: Found(o.calls, id) == LastCall(ds, n, id)
    requires Violates(choice, o.calls) <==> IsChoiceUnmet(choice, ds, n)
    ensures Shows(choice, ds, n, shown) && Handle(choice, ds[n].answers, o, ds[n].item.value).1 == Oks(shown)
  {
    hide Violates, IsChoiceUnmet, LastCall, IsTextOpen, IsReasoningOpen, Oks, Parts, AreOfBlock;
    var events := Handle(choice, ds[n].answers, o, ds[n].item.value).1;
    assert |events| <= 2 && forall i :: 0 <= i < |events| ==> events[i].Ok?;
    PartsOfFew(events);
    shown := Parts(events);
  }

  lemma {:induction false} StartIsStep(choice: ToolChoice, ds: seq<Delivery>, n: nat, con: Consumer)
    requires n < |ds| && Remembers(choice, ds, n, con) && IsPart(ds[n])
    ensures Opened(con, ds[n].item.value).1 == StepStart(ds, n)
  {
    hide AreLastCalls, IsTextOpen, IsReasoningOpen;
  }

  // ----- The whole stream

  ghost predicate Tells(choice: ToolChoice, ds: seq<Delivery>, n: nat, outs: seq<seq<Event>>)
    requires n <= |ds|
  {
    && |outs| == n + 1 && outs[0] == [Ok(Start)]
    && forall k: nat :: k < n ==> GoesOn(ds[k]) && Extends(choice, ds, k, outs[k], outs[k + 1])
  }

  lemma {:induction false} DeliveryExtends(choice: ToolChoice, ds: seq<Delivery>, n: nat, r: Run)
    requires n < |ds| && GoesOn(ds[n]) && !r.done && Remembers(choice, ds, n, r.con)
    ensures !Deliver(choice, r, ds[n]).done && Remembers(choice, ds, n + 1, Deliver(choice, r, ds[n]).con)
    ensures Extends(choice, ds, n, r.out, Deliver(choice, r, ds[n]).out)
  {
    if IsPart(ds[n]) {
      PartKeeps(choice, ds, n, r.con);
      StartIsStep(choice, ds, n, r.con);
      var shown := PartShows(choice, ds, n, r.con);
      hide Handle, Shows, Opened, Remembers, StepStart;
    } else {
      FrameKeeps(choice, ds, n, r.con);
    }
  }

  lemma {:induction false} RunTells(choice: ToolChoice, ds: seq<Delivery>, n: nat) returns (outs: seq<seq<Event>>)
    requires n <= |ds| && forall i :: 0 <= i < n ==> GoesOn(ds[i])
    ensures !AfterDeliveries(choice, ds, n).done && Remembers(choice, ds, n, AfterDeliveries(choice, ds, n).con)
    ensures Tells(choice, ds, n, outs) && outs[n] == AfterDeliveries(choice, ds, n).out
  {
    if n == 0 {
      outs := [[Ok(Start)]];
      NothingRemembered(choice, ds);
    } else {
      var before := RunTells(choice, ds, n - 1);
      DeliveryExtends(choice, ds, n - 1, AfterDeliveries(choice, ds, n - 1));
      hide Deliver, Remembers, Extends;
      outs := before + [AfterDeliveries(choice, ds, n).out];
    }
  }

  lemma {:induction false} NothingRemembered(choice: ToolChoice, ds: seq<Delivery>)
    ensures Remembers(choice, ds, 0, NEW_CONSUMER)
  {
    assert AreLastCalls(NEW_CONSUMER.calls, ds, 0);
  }

  /** Where the deliveries end the stream, or are over. */
  lemma {:induction false} FirstEnd(ds: seq<Delivery>, n: nat) returns (m: nat)
    requires n <= |ds| && forall i :: 0 <= i < n ==> GoesOn(ds[i])
    ensures IsFirstEnd(ds, m)
    decreases |ds| - n
  {
    if n < |ds| && GoesOn(ds[n]) { m := FirstEnd(ds, n + 1); } else { m := n; }
  }

  /**
   The stream of any deliveries: each one up to the first that ends the stream
   adds what it is shown as, in order, and then the stream closes.
   */
  lemma {:induction false} StreamTells(choice: ToolChoice, ds: seq<Delivery>)
    returns (m: nat, outs: seq<seq<Event>>, closing: seq<Event>)
    ensures IsFirstEnd(ds, m) && Tells(choice, ds, m, outs)
    ensures Closes(choice, ds, m, closing) && Stream(choice, ds) == outs[m] + closing
  {
    m := FirstEnd(ds, 0);
    outs := RunTells(choice, ds, m);
    if m < |ds| {
      closing := [if ds[m].AbortSeen? then Ok(Abort(ds[m].message)) else Err(ds[m].item.error)];
      hide Remembers, Tells;
      assert AfterDeliveries(choice, ds, m + 1) == Deliver(choice, AfterDeliveries(choice, ds, m), ds[m]);
      DoneStays(choice, ds, m + 1);
    } else {
      closing := EndOfStream(AfterDeliveries(choice, ds, m).con);
    }
  }
}
