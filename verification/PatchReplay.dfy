/** What a patch changes in a result, part by part, and when a repair is refused. */
module PatchReplay {
  import opened Wrappers
  import opened Content
  import opened ResponseMessages
  import opened TextStream
  import opened ToolCallRepair
  import opened ResultPatch
  import opened Selections

  // ----- Content

  /** The repaired call is still a client call that could not be parsed. */
  predicate IsStillInvalid(repaired: ToolCall) {
    repaired.invalid == Some(true) && repaired.providerExecuted != Some(true) && repaired.dynamic == Some(true)
  }

  /** The client's tool error for the id. */
  predicate IsClientErrorOf(p: Part, id: string) { p.ErrorContent? && p.error.id == id && p.error.providerExecuted != Some(true) }

  /** The error of a call that is now valid goes. */
  predicate IsDropped(p: Part, id: string, repaired: ToolCall) { IsClientErrorOf(p, id) && !IsStillInvalid(repaired) }

  /** The call, and the call in an approval request, are the repaired one; its
      error tells the repaired call's; all else stays. */
  predicate IsPatched(p: Part, q: Part, id: string, repaired: ToolCall) {
    if p.CallContent? && p.call.id == id then q.CallContent? && q.call == repaired
    else if p.ApprovalContent? && p.approval.call.id == id then
      && q.ApprovalContent? && q.approval.call == repaired
      && q.approval.approvalId == p.approval.approvalId && q.approval.reason == p.approval.reason
      && q.approval.isAutomatic == p.approval.isAutomatic && q.approval.signature == p.approval.signature
      && q.approval.inputSchemaInput == p.approval.inputSchemaInput
    else if IsClientErrorOf(p, id) then
      && q.ErrorContent? && q.error.id == repaired.id && q.error.name == repaired.name && q.error.input == Some(repaired.input)
      && q.error.error == Str(if repaired.error.Some? then Display(repaired.error.value) else "unknown error")
      && q.error.providerExecuted.None? && q.error.metadata.None? && q.error.dynamic == Some(true)
    else q == p
  }

  /** The content is patched in place: nothing else goes, and the order stays. */
  lemma {:induction false} ContentIsPatched(content: seq<Part>, id: string, repaired: ToolCall) returns (places: seq<nat>)
    ensures IsSelection(content, PatchContent(content, id, repaired), places,
                        p => IsDropped(p, id, repaired), (p, q) => IsPatched(p, q, id, repaired))
  {
    var drops, patches := p => IsDropped(p, id, repaired), (p, q) => IsPatched(p, q, id, repaired);
    if content == [] {
      NothingSelected<Part, Part>(drops, patches);
      places := [];
    } else {
      var rest, p := content[..|content| - 1], content[|content| - 1];
      assert content == rest + [p];
      var before := ContentIsPatched(rest, id, repaired);
      PartIsPatched(p, id, repaired);
      hide IsSelection, IsDropped, IsPatched, PatchPart;
      places := SelectNext(rest, PatchContent(rest, id, repaired), before, p, PatchPart(p, id, repaired), drops, patches);
    }
  }

  lemma {:induction false} PartIsPatched(p: Part, id: string, repaired: ToolCall)
    ensures var qs := PatchPart(p, id, repaired);
            if IsDropped(p, id, repaired) then qs == [] else |qs| == 1 && IsPatched(p, qs[0], id, repaired)
  {
  }

  // ----- Messages

  /** A call and a request for its approval take the repaired id; the call its
      name and replayed input too. */
  predicate IsRewritten(p: AssistantPart, q: AssistantPart, id: string, repaired: ToolCall) {
    if p.CallPart? && p.callId == id then
      && q.CallPart? && q.callId == repaired.id && q.name == repaired.name
      && q.input == (if repaired.invalid == Some(true) && !repaired.input.Obj? && !repaired.input.Arr? && !repaired.input.Null?
                     then Obj(map[]) else repaired.input)
      && q.providerExecuted == p.providerExecuted && q.options == p.options
    else if p.ApprovalRequestPart? && p.callId == id then
      && q.ApprovalRequestPart? && q.callId == repaired.id && q.approvalId == p.approvalId && q.reason == p.reason
      && q.isAutomatic == p.isAutomatic && q.signature == p.signature && q.inputSchemaInput == p.inputSchemaInput
    else q == p
  }

  lemma {:induction false} PartsAreRewritten(parts: seq<AssistantPart>, id: string, repaired: ToolCall)
    ensures forall i :: 0 <= i < |parts| ==> IsRewritten(parts[i], PatchParts(parts, id, repaired)[i], id, repaired)
  {
    PatchPartsAre(parts, id, repaired);
    hide PatchParts;
    forall i | 0 <= i < |parts| ensures IsRewritten(parts[i], PatchParts(parts, id, repaired)[i], id, repaired) {
      PartIsRewritten(parts[i], id, repaired);
    }
  }

  lemma {:induction false} PartIsRewritten(p: AssistantPart, id: string, repaired: ToolCall)
    ensures IsRewritten(p, PatchAssistantPart(p, id, repaired), id, repaired)
  {
  }

  predicate IsAnswerDropped(p: ToolPart, id: string, repaired: ToolCall) {
    p.ClientResult? && p.result.callId == id && !IsStillInvalid(repaired)
  }

  /** The result of the call becomes the repaired call's error, its options kept. */
  predicate IsAnswerPatched(p: ToolPart, q: ToolPart, id: string, repaired: ToolCall) {
    if p.ClientResult? && p.result.callId == id then
      && q.ClientResult? && q.result.callId == repaired.id && q.result.name == Some(repaired.name)
      && q.result.output == ErrorText(Str(if repaired.error.Some? then Display(repaired.error.value) else "unknown error"))
      && q.result.options == p.result.options
    else q == p
  }

  lemma {:induction false} AnswersArePatched(answers: seq<ToolPart>, id: string, repaired: ToolCall) returns (places: seq<nat>)
    ensures IsSelection(answers, PatchAnswers(answers, id, ErrorAfter(repaired)), places,
                        p => IsAnswerDropped(p, id, repaired), (p, q) => IsAnswerPatched(p, q, id, repaired))
  {
    var drops, patches, e := p => IsAnswerDropped(p, id, repaired), (p, q) => IsAnswerPatched(p, q, id, repaired), ErrorAfter(repaired);
    if answers == [] {
      NothingSelected<ToolPart, ToolPart>(drops, patches);
      places := [];
    } else {
      var rest, p := answers[..|answers| - 1], answers[|answers| - 1];
      assert answers == rest + [p];
      var before := AnswersArePatched(rest, id, repaired);
      AnswerIsPatched(p, id, repaired);
      var more := if PatchAnswer(p, id, e).Some? then [PatchAnswer(p, id, e).value] else [];
      hide IsSelection, IsAnswerDropped, IsAnswerPatched, PatchAnswer, ErrorAfter;
      places := SelectNext(rest, PatchAnswers(rest, id, e), before, p, more, drops, patches);
    }
  }

  lemma {:induction false} AnswerIsPatched(p: ToolPart, id: string, repaired: ToolCall)
    ensures var q := PatchAnswer(p, id, ErrorAfter(repaired));
            if IsAnswerDropped(p, id, repaired) then q.None? else q.Some? && IsAnswerPatched(p, q.value, id, repaired)
  {
  }

  /** A tool message is patched only in a step that has the client's error. */
  function PatchedAnswers(answers: seq<ToolPart>, id: string, repaired: ToolCall, had: bool): seq<ToolPart> {
    if had then PatchAnswers(answers, id, ErrorAfter(repaired)) else answers
  }

  /** A tool message that holds nothing goes. */
  predicate IsMessageDropped(m: Message, id: string, repaired: ToolCall, had: bool) {
    m.Tool? && PatchedAnswers(m.answers, id, repaired, had) == []
  }

  predicate IsMessagePatched(m: Message, q: Message, id: string, repaired: ToolCall, had: bool) {
    if m.Assistant? then q.Assistant? && q.parts == PatchParts(m.parts, id, repaired)
    else q.Tool? && q.answers == PatchedAnswers(m.answers, id, repaired, had)
  }

  lemma {:induction false} MessagesArePatched(messages: seq<Message>, id: string, repaired: ToolCall, had: bool) returns (places: seq<nat>)
    ensures IsSelection(messages, PatchMessages(messages, id, repaired, had), places,
                        m => IsMessageDropped(m, id, repaired, had), (m, q) => IsMessagePatched(m, q, id, repaired, had))
  {
    var drops, patches := m => IsMessageDropped(m, id, repaired, had), (m, q) => IsMessagePatched(m, q, id, repaired, had);
    if messages == [] {
      NothingSelected<Message, Message>(drops, patches);
      places := [];
    } else {
      var rest, m := messages[..|messages| - 1], messages[|messages| - 1];
      var before := MessagesArePatched(rest, id, repaired, had);
      PatchMessagesSnoc(rest, m, id, repaired, had);
      assert messages == rest + [m];
      var q := PatchMessage(m, id, repaired, had);
      assert if IsMessageDropped(m, id, repaired, had) then q == Tool([]) else q != Tool([]) && IsMessagePatched(m, q, id, repaired, had);
      hide IsSelection, IsMessageDropped, IsMessagePatched, PatchMessage, PatchMessages;
      places := SelectNext(rest, PatchMessages(rest, id, repaired, had), before, m, if q == Tool([]) then [] else [q], drops, patches);
    }
  }

  // ----- The result

  /** How many calls have the id in some content. */
  function CallCount(content: seq<Part>, id: string): nat {
    if content == [] then 0
    else (if content[0].CallContent? && content[0].call.id == id then 1 else 0) + CallCount(content[1..], id)
  }

  function TotalCalls(steps: seq<StepRecord>, id: string): nat {
    if steps == [] then 0 else CallCount(steps[0].content, id) + TotalCalls(steps[1..], id)
  }

  lemma {:induction false} CountSnoc(content: seq<Part>, p: Part, id: string)
    ensures CallCount(content + [p], id) == CallCount(content, id) + if p.CallContent? && p.call.id == id then 1 else 0
  {
    if content == [] {
      assert content + [p] == [p] && [p][1..] == [];
    } else {
      assert (content + [p])[1..] == content[1..] + [p];
      CountSnoc(content[1..], p, id);
    }
  }

  lemma {:induction false} TotalSnoc(steps: seq<StepRecord>, step: StepRecord, id: string)
    ensures TotalCalls(steps + [step], id) == TotalCalls(steps, id) + CallCount(step.content, id)
  {
    hide CallCount;
    if steps == [] {
      assert steps + [step] == [step] && [step][1..] == [];
    } else {
      assert (steps + [step])[1..] == steps[1..] + [step];
      TotalSnoc(steps[1..], step, id);
    }
  }

  lemma {:induction false} WithIdAdd(a: seq<ToolCall>, b: seq<ToolCall>, id: string)
    ensures WithId(a + b, id) == WithId(a, id) + WithId(b, id)
  {
    if b == [] {
      assert a + b == a;
    } else {
      assert (a + b)[..|a + b| - 1] == a + b[..|b| - 1];
      WithIdAdd(a, b[..|b| - 1], id);
    }
  }

  lemma {:induction false} CountIsFound(content: seq<Part>, id: string)
    ensures |WithId(Calls(content), id)| == CallCount(content, id)
  {
    if content != [] {
      var rest, p := content[..|content| - 1], content[|content| - 1];
      assert content == rest + [p];
      CountIsFound(rest, id);
      CountSnoc(rest, p, id);
      var more := if p.CallContent? then [p.call] else [];
      WithIdAdd(Calls(rest), more, id);
      if more != [] { assert more[..0] == [] && WithId(more, id) == if p.call.id == id then [p.call] else []; }
      hide WithId, CallCount;
    }
  }

  lemma {:induction false} TotalIsFound(steps: seq<StepRecord>, id: string)
    ensures |WithId(AllCalls(steps), id)| == TotalCalls(steps, id)
  {
    if steps != [] {
      var rest, step := steps[..|steps| - 1], steps[|steps| - 1];
      assert steps == rest + [step];
      TotalIsFound(rest, id);
      TotalSnoc(rest, step, id);
      CountIsFound(step.content, id);
      WithIdAdd(AllCalls(rest), Calls(step.content), id);
      hide WithId, TotalCalls;
    }
  }

  /** The one call of the id in the result. */
  ghost predicate IsTheCall(steps: seq<StepRecord>, id: string, call: ToolCall) {
    TotalCalls(steps, id) == 1 && SomeStepHas(steps, call) && call.id == id
  }

  /** A call that a host may repair. */
  predicate IsRepairable(call: ToolCall, tools: Option<seq<ToolDef>>) {
    tools.Some? && call.invalid == Some(true) && call.error.Some?
  }

  /** A repair is answered exactly for an invalid call with its error that was
      made with tools, and otherwise refused. */
  lemma {:induction false} RepairIsAnswered(codec: Codec, call: ToolCall, tools: Option<seq<ToolDef>>, reply: Reply)
    ensures ApplyRepair(codec, call, tools, reply).Ok? <==> IsRepairable(call, tools)
    ensures ApplyRepair(codec, call, tools, reply).Err? ==> ApplyRepair(codec, call, tools, reply).error.InvalidArgument?
  {
  }

  /** A result is repaired if and only if exactly one call has the id, a host may
      repair it, and the repaired id is its own or no call's; otherwise it is
      refused. A repaired result has its steps in their places, with their
      reasons and warnings, each patched. */
  lemma {:induction false} ResultIsRepaired(codec: Codec, steps: seq<StepRecord>, tools: Option<seq<ToolDef>>, id: string, reply: Reply)
    returns (call: ToolCall)
    ensures var result := RepairResult(codec, steps, tools, id, reply);
            && (TotalCalls(steps, id) == 1 ==> IsTheCall(steps, id, call))
            && (result.Ok? <==>
                  && TotalCalls(steps, id) == 1 && IsRepairable(call, tools)
                  && var repaired := ApplyRepair(codec, call, tools, reply);
                     repaired.Ok? && (repaired.value.id == id || TotalCalls(steps, repaired.value.id) == 0))
            && (result.Err? ==> result.error.InvalidArgument?)
            && (result.Ok? ==> ArePatched(steps, result.value, id, ApplyRepair(codec, call, tools, reply).value))
  {
    var found := WithId(AllCalls(steps), id);
    TotalIsFound(steps, id);
    call := if |found| == 1 then found[0] else ToolCall("", "", Null, None, None, None, None, None);
    if |found| == 1 {
      assert call in found;
      FoundById(AllCalls(steps), id, call);
      AllCallsAre(steps, call);
    }
    RepairIsAnswered(codec, call, tools, reply);
    var repaired := ApplyRepair(codec, call, tools, reply);
    if repaired.Ok? { TotalIsFound(steps, repaired.value.id); }
    hide WithId, AllCalls, TotalCalls, ApplyRepair, SomeStepHas, ArePatched, PatchSteps;
    if repaired.Ok? { StepsArePatched(steps, id, repaired.value); }
  }

  lemma {:induction false} StepsArePatched(steps: seq<StepRecord>, id: string, repaired: ToolCall)
    ensures ArePatched(steps, PatchSteps(steps, id, repaired), id, repaired)
  {
    hide PatchContent, PatchMessages, HasErrorOf;
  }

  ghost predicate ArePatched(steps: seq<StepRecord>, patched: seq<StepRecord>, id: string, repaired: ToolCall) {
    |patched| == |steps| && forall k :: 0 <= k < |steps| ==>
      && patched[k].reason == steps[k].reason && patched[k].warnings == steps[k].warnings
      && patched[k].content == PatchContent(steps[k].content, id, repaired)
      && patched[k].messages == PatchMessages(steps[k].messages, id, repaired, HasErrorOf(steps[k].content, id))
  }
}
