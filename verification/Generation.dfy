/**
 The content of a generated (not streamed) model call, and what its response
 messages do to the history they are appended to: a client call that could not
 be parsed is answered in the step itself.
 */
module Generation {
  import opened Wrappers
  import opened Content
  import opened ResponseMessages
  import opened ToolCallRepair
  import opened ResultPatch
  import opened PromptConversion
  import History = PromptHistory

  /** What the model generated; `repair` is the answer of the repair hook to this
      call, and `resolved` what resolving this file gives. */
  datatype ModelOutput =
    | GenText(text: string, metadata: Metadata)
    | GenCall(raw: RawToolCall, repair: Option<Callback>)
    | GenReasoning(text: string, metadata: Metadata)
    | GenSource(source: string)
    | GenFile(file: File, resolved: Result<File, AiError>)
    | GenReasoningFile(file: File, resolved: Result<File, AiError>)
    | GenCustom(kind: string, metadata: Metadata)
    | GenApproval(approvalId: string, callId: string)
    | GenResult(result: ToolResult)

  /** `deferred` says which provider tools may answer a call of an earlier step. */
  datatype Env = Env(codec: Codec, tools: Option<seq<ToolDef>>, deferred: string -> bool)

  /** The content so far; an error; or the panic for a call that was not found. */
  datatype Outcome = Content(parts: seq<Part>) | Stopped(error: AiError) | Panicked

  function ParsedItem(env: Env, item: ModelOutput): ToolCall
    requires item.GenCall?
  {
    ParseToolCall(env.codec, item.raw, env.tools, item.repair)
  }

  function Parsed(env: Env, items: seq<ModelOutput>): seq<ToolCall> {
    if items == [] then []
    else
      var before, last := Parsed(env, items[..|items| - 1]), items[|items| - 1];
      if last.GenCall? then before + [ParsedItem(env, last)] else before
  }

  function FindParsed(calls: seq<ToolCall>, id: string): (c: Option<ToolCall>)
    ensures c.Some? ==> c.value in calls && c.value.id == id
    ensures c.None? ==> forall i :: 0 <= i < |calls| ==> calls[i].id != id
  {
    if calls == [] then None else if calls[0].id == id then Some(calls[0]) else FindParsed(calls[1..], id)
  }

  function AddItem(env: Env, calls: seq<ToolCall>, parts: seq<Part>, item: ModelOutput): Outcome {
    match item
    case GenText(text, metadata) => Content(parts + [Text(text, metadata)])
    case GenCall(raw, _) =>
      var call := FindParsed(calls, raw.id);
      if call.Some? then Content(parts + [CallContent(call.value)]) else Panicked
    case GenReasoning(text, metadata) => Content(parts + [Reasoning(text, metadata)])
    case GenSource(source) => Content(parts + [Source(source)])
    case GenFile(_, resolved) =>
      (match resolved
       case Ok(f) => Content(parts + [FileContent(f)])
       case Err(e) => Stopped(e))
    case GenReasoningFile(_, resolved) =>
      (match resolved
       case Ok(f) => Content(parts + [ReasoningFile(f)])
       case Err(e) => Stopped(e))
    case GenCustom(kind, metadata) => Content(parts + [Custom(kind, metadata)])
    case GenApproval(approvalId, callId) =>
      var call := FindParsed(calls, callId);
      if call.None? then Stopped(ToolCallNotFoundForApproval(callId, approvalId))
      else Content(parts + [ApprovalContent(ApprovalRequest(approvalId, call.value, None, None, None, None))])
    case GenResult(result) =>
      if FindParsed(calls, result.id).None? && !env.deferred(result.name)
      then Stopped(OtherError("Tool call " + result.id + " not found."))
      else if IsTrue(result.preliminary) then Content(parts)
      else Content(parts + [ProviderResultContent(parts, result)])
  }

  function AddItems(env: Env, calls: seq<ToolCall>, items: seq<ModelOutput>, n: nat): Outcome
    requires n <= |items|
  {
    if n == 0 then Content([])
    else
      match AddItems(env, calls, items, n - 1)
      case Content(parts) => AddItem(env, calls, parts, items[n - 1])
      case failed => failed
  }

  /** The errors of the calls that could not be parsed. */
  function CallErrors(calls: seq<ToolCall>): seq<Part> {
    if calls == [] then []
    else
      var before, e := CallErrors(calls[..|calls| - 1]), ErrorAfter(calls[|calls| - 1]);
      if e.Some? then before + [ErrorContent(e.value)] else before
  }

  function GeneratedContent(env: Env, items: seq<ModelOutput>): Outcome {
    var calls := Parsed(env, items);
    match AddItems(env, calls, items, |items|)
    case Content(parts) => Content(parts + CallErrors(calls))
    case failed => failed
  }

  // ----- The code

  method ParseCalls(env: Env, items: seq<ModelOutput>) returns (calls: seq<ToolCall>)
    ensures calls == Parsed(env, items)
  {
    calls := [];
    for n := 0 to |items|
      invariant calls == Parsed(env, items[..n])
    {
      if items[n].GenCall? { calls := calls + [ParsedItem(env, items[n])]; }
      assert items[..n + 1][..n] == items[..n];
    }
    assert items[..|items|] == items;
  }

  lemma {:induction false} FailureStays(env: Env, calls: seq<ToolCall>, items: seq<ModelOutput>, n: nat)
    requires n <= |items| && !AddItems(env, calls, items, n).Content?
    ensures AddItems(env, calls, items, |items|) == AddItems(env, calls, items, n)
    decreases |items| - n
  {
    if n < |items| { FailureStays(env, calls, items, n + 1); }
  }

  /** One item into the builder, or why it cannot be. */
  method AddToBuilder(env: Env, calls: seq<ToolCall>, rm: ResponseMessageBuilder, item: ModelOutput)
    returns (failure: Option<Outcome>)
    modifies rm
    ensures AddItem(env, calls, old(rm.content), item)
         == if failure.Some? then failure.value else Content(rm.content)
    ensures failure.Some? ==> !failure.value.Content?
  {
    failure := None;
    match item
    case GenText(text, metadata) => rm.Add(Text(text, metadata));
    case GenCall(raw, _) =>
      var call := FindParsed(calls, raw.id);
      if call.None? { return Some(Panicked); }
      rm.Add(CallContent(call.value));
    case GenReasoning(text, metadata) => rm.Add(Reasoning(text, metadata));
    case GenSource(source) => rm.Add(Source(source));
    case GenFile(_, resolved) =>
      if resolved.Err? { return Some(Stopped(resolved.error)); }
      rm.Add(FileContent(resolved.value));
    case GenReasoningFile(_, resolved) =>
      if resolved.Err? { return Some(Stopped(resolved.error)); }
      rm.Add(ReasoningFile(resolved.value));
    case GenCustom(kind, metadata) => rm.Add(Custom(kind, metadata));
    case GenApproval(approvalId, callId) =>
      var call := FindParsed(calls, callId);
      if call.None? { return Some(Stopped(ToolCallNotFoundForApproval(callId, approvalId))); }
      rm.Add(ApprovalContent(ApprovalRequest(approvalId, call.value, None, None, None, None)));
    case GenResult(result) =>
      if FindParsed(calls, result.id).None? && !env.deferred(result.name) {
        return Some(Stopped(OtherError("Tool call " + result.id + " not found.")));
      }
      rm.AddResult(result);
  }

  method ConvertGenerated(env: Env, items: seq<ModelOutput>) returns (outcome: Outcome, messages: seq<Message>)
    ensures outcome == GeneratedContent(env, items)
    ensures messages == if outcome.Content? then Messages(outcome.parts) else []
  {
    hide AddItem, ErrorAfter, Messages;
    var calls := ParseCalls(env, items);
    var rm := new ResponseMessageBuilder();
    for n := 0 to |items|
      invariant AddItems(env, calls, items, n) == Content(rm.content)
    {
      var failure := AddToBuilder(env, calls, rm, items[n]);
      if failure.Some? {
        FailureStays(env, calls, items, n + 1);
        return failure.value, [];
      }
    }
    ghost var parts := rm.content;
    assert parts + [] == parts;
    for n := 0 to |calls|
      invariant rm.content == parts + CallErrors(calls[..n])
    {
      assert calls[..n + 1][..n] == calls[..n];
      var error := ErrorAfter(calls[n]);
      if error.Some? { rm.Add(ErrorContent(error.value)); }
    }
    assert calls[..|calls|] == calls;
    messages := rm.BuildMessages();
    outcome := Content(rm.content);
  }

  // ----- Calls that were not found

  /** A call whose id no parsed call has. */
  predicate IsOrphan(calls: seq<ToolCall>, item: ModelOutput) {
    item.GenCall? && FindParsed(calls, item.raw.id).None?
  }

  /** A file that does not resolve, an approval without its call, or a result
      without a call that is not deferred. */
  predicate IsStopping(env: Env, calls: seq<ToolCall>, item: ModelOutput) {
    match item
    case GenFile(_, resolved) => resolved.Err?
    case GenReasoningFile(_, resolved) => resolved.Err?
    case GenApproval(_, callId) => FindParsed(calls, callId).None?
    case GenResult(result) => FindParsed(calls, result.id).None? && !env.deferred(result.name)
    case _ => false
  }

  /** The first item that cannot be added is one whose call is gone. */
  ghost predicate OrphanComesFirst(env: Env, calls: seq<ToolCall>, items: seq<ModelOutput>, i: nat)
    requires i < |items|
  {
    IsOrphan(calls, items[i]) && forall k :: 0 <= k < i ==> !IsOrphan(calls, items[k]) && !IsStopping(env, calls, items[k])
  }

  ghost predicate MeetsOrphan(env: Env, calls: seq<ToolCall>, items: seq<ModelOutput>, n: nat)
    requires n <= |items|
  {
    exists i :: 0 <= i < n && OrphanComesFirst(env, calls, items, i)
  }

  lemma {:induction false} AddItemsFails(env: Env, calls: seq<ToolCall>, items: seq<ModelOutput>, n: nat)
    requires n <= |items|
    ensures AddItems(env, calls, items, n).Content? <==>
              forall i :: 0 <= i < n ==> !IsOrphan(calls, items[i]) && !IsStopping(env, calls, items[i])
    ensures AddItems(env, calls, items, n).Panicked? <==> MeetsOrphan(env, calls, items, n)
  {
    if n > 0 {
      AddItemsFails(env, calls, items, n - 1);
      var before := AddItems(env, calls, items, n - 1);
      if before.Content? {
        assert AddItem(env, calls, before.parts, items[n - 1]).Panicked? <==> IsOrphan(calls, items[n - 1]);
        assert AddItem(env, calls, before.parts, items[n - 1]).Stopped? <==> IsStopping(env, calls, items[n - 1]);
        assert OrphanComesFirst(env, calls, items, n - 1) <==> IsOrphan(calls, items[n - 1]);
      } else {
        var k :| 0 <= k < n - 1 && (IsOrphan(calls, items[k]) || IsStopping(env, calls, items[k]));
        assert !OrphanComesFirst(env, calls, items, n - 1);
      }
      hide IsOrphan, IsStopping, AddItem;
    }
  }

  /** Generation panics if and only if a call whose id no parsed call has comes
      before every item that stops it with an error. */
  lemma {:induction false} PanicsExactly(env: Env, items: seq<ModelOutput>)
    ensures GeneratedContent(env, items).Panicked? <==> MeetsOrphan(env, Parsed(env, items), items, |items|)
    ensures GeneratedContent(env, items).Content? <==>
              forall i :: 0 <= i < |items| ==>
                !IsOrphan(Parsed(env, items), items[i]) && !IsStopping(env, Parsed(env, items), items[i])
  {
    var calls := Parsed(env, items);
    AddItemsFails(env, calls, items, |items|);
    hide AddItems, Parsed, CallErrors, MeetsOrphan;
  }

  /** The replacement of a repair has the id of the call it replaces. */
  predicate KeepsId(env: Env, item: ModelOutput) {
    item.GenCall? ==> ParsedItem(env, item).id == item.raw.id
  }

  lemma {:induction false} ParsedHas(env: Env, items: seq<ModelOutput>, i: nat)
    requires i < |items| && items[i].GenCall?
    ensures ParsedItem(env, items[i]) in Parsed(env, items)
  {
    hide ParsedItem;
    if i < |items| - 1 { ParsedHas(env, items[..|items| - 1], i); }
  }

  lemma {:induction false} ParsedFrom(env: Env, items: seq<ModelOutput>, call: ToolCall) returns (i: nat)
    requires call in Parsed(env, items)
    ensures i < |items| && items[i].GenCall? && call == ParsedItem(env, items[i])
  {
    hide ParsedItem;
    i := |items| - 1;
    if call in Parsed(env, items[..|items| - 1]) { i := ParsedFrom(env, items[..|items| - 1], call); }
  }

  /** So it never panics when repairs keep ids. */
  lemma {:induction false} NoPanicWithoutRenaming(env: Env, items: seq<ModelOutput>)
    requires forall i :: 0 <= i < |items| ==> KeepsId(env, items[i])
    ensures !GeneratedContent(env, items).Panicked?
  {
    var calls := Parsed(env, items);
    PanicsExactly(env, items);
    hide ParsedItem, Parsed, GeneratedContent;
    forall i | 0 <= i < |items| ensures !IsOrphan(calls, items[i]) {
      if items[i].GenCall? {
        assert KeepsId(env, items[i]);
        ParsedHas(env, items, i);
      }
    }
  }

  /** An invalid call has the id of the raw call, and is dynamic. */
  lemma {:induction false} InvalidKeepsId(env: Env, item: ModelOutput)
    requires item.GenCall?
    ensures var call := ParsedItem(env, item);
            call.invalid.Some? ==> call.id == item.raw.id && call.dynamic == Some(true)
  {
  }

  /** A repair that gives a single call another id does cause it. */
  lemma {:induction false} RenamingRepairPanics(env: Env, item: ModelOutput)
    requires item.GenCall? && !KeepsId(env, item)
    ensures GeneratedContent(env, [item]) == Panicked
  {
    var items := [item];
    hide ParsedItem;
    assert items[..0] == [];
    assert Parsed(env, items) == [] + [ParsedItem(env, item)];
    PanicsExactly(env, items);
    assert OrphanComesFirst(env, Parsed(env, items), items, 0);
  }

  // ----- The content answers its invalid calls

  lemma {:induction false} CallAdd(a: seq<Part>, b: seq<Part>, k: string)
    ensures IsCall(a + b, k) <==> IsCall(a, k) || IsCall(b, k)
  {
    var all := a + b;
    if IsCall(a, k) {
      var i :| 0 <= i < |a| && a[i].CallContent? && a[i].call.id == k;
      assert all[i] == a[i];
    }
    if IsCall(b, k) {
      var i :| 0 <= i < |b| && b[i].CallContent? && b[i].call.id == k;
      assert all[|a| + i] == b[i];
    }
  }

  lemma {:induction false} ErrorAdd(a: seq<Part>, b: seq<Part>, k: string)
    ensures HasErrorOf(a + b, k) <==> HasErrorOf(a, k) || HasErrorOf(b, k)
  {
    var all := a + b;
    if HasErrorOf(a, k) {
      var i :| 0 <= i < |a| && IsErrorOf(a[i], k);
      assert all[i] == a[i];
    }
    if HasErrorOf(b, k) {
      var i :| 0 <= i < |b| && IsErrorOf(b[i], k);
      assert all[|a| + i] == b[i];
    }
  }

  /** A part the model's own output becomes: no client result, and only parsed calls. */
  predicate IsOfModel(p: Part, calls: seq<ToolCall>) {
    && IsGeneratedPart(p)
    && (p.ErrorContent? ==> IsTrue(p.error.providerExecuted))
    && (p.CallContent? ==> p.call in calls)
  }

  lemma {:induction false} ItemParts(env: Env, calls: seq<ToolCall>, items: seq<ModelOutput>, n: nat)
    requires n <= |items| && AddItems(env, calls, items, n).Content?
    ensures var parts := AddItems(env, calls, items, n).parts;
            && (forall i :: 0 <= i < |parts| ==> IsOfModel(parts[i], calls))
            && (forall i :: 0 <= i < n && items[i].GenCall? ==> IsCall(parts, items[i].raw.id))
  {
    if n > 0 {
      ItemParts(env, calls, items, n - 1);
      var before, parts := AddItems(env, calls, items, n - 1).parts, AddItems(env, calls, items, n).parts;
      OneItem(env, calls, before, items[n - 1]);
      assert parts == before + parts[|before|..];
      hide IsCall, AddItem, IsOfModel, AddItems;
      forall i | 0 <= i < n && items[i].GenCall? ensures IsCall(parts, items[i].raw.id) {
        CallAdd(before, parts[|before|..], items[i].raw.id);
      }
    }
  }

  lemma {:induction false} OneItem(env: Env, calls: seq<ToolCall>, before: seq<Part>, item: ModelOutput)
    requires AddItem(env, calls, before, item).Content?
    ensures var parts := AddItem(env, calls, before, item).parts;
            && |before| <= |parts| && parts[..|before|] == before
            && (forall i :: |before| <= i < |parts| ==> IsOfModel(parts[i], calls))
            && (item.GenCall? ==> IsCall(parts[|before|..], item.raw.id))
  {
    var parts := AddItem(env, calls, before, item).parts;
    if item.GenCall? {
      var more := parts[|before|..];
      assert more[0].CallContent? && more[0].call.id == item.raw.id;
    }
  }

  predicate Fails(calls: seq<ToolCall>, k: string) {
    exists i :: 0 <= i < |calls| && calls[i].id == k && ErrorAfter(calls[i]).Some?
  }

  lemma {:induction false} FailsSnoc(calls: seq<ToolCall>, last: ToolCall, k: string)
    ensures Fails(calls + [last], k) <==> Fails(calls, k) || (last.id == k && ErrorAfter(last).Some?)
  {
    hide ErrorAfter;
    var all := calls + [last];
    if Fails(calls, k) {
      var i :| 0 <= i < |calls| && calls[i].id == k && ErrorAfter(calls[i]).Some?;
      assert all[i] == calls[i];
    }
    if Fails(all, k) {
      var i :| 0 <= i < |all| && all[i].id == k && ErrorAfter(all[i]).Some?;
      if i < |calls| { assert calls[i] == all[i]; }
    }
    assert all[|calls|] == last;
  }

  lemma {:induction false} OneError(call: ToolCall, k: string)
    requires ErrorAfter(call).Some?
    ensures var p := ErrorContent(ErrorAfter(call).value);
            IsGeneratedPart(p) && !IsTrue(p.error.providerExecuted) && (IsErrorOf(p, k) <==> call.id == k)
  {
  }

  lemma {:induction false} ErrorsOfCalls(calls: seq<ToolCall>, k: string)
    ensures HasErrorOf(CallErrors(calls), k) <==> Fails(calls, k)
    ensures forall i :: 0 <= i < |CallErrors(calls)| ==> CallErrors(calls)[i].ErrorContent? && IsGeneratedPart(CallErrors(calls)[i])
  {
    if calls != [] {
      var rest, last := calls[..|calls| - 1], calls[|calls| - 1];
      ErrorsOfCalls(rest, k);
      hide HasErrorOf, Fails, IsGeneratedPart, ErrorAfter;
      assert calls == rest + [last];
      FailsSnoc(rest, last, k);
      var e := ErrorAfter(last);
      if e.Some? {
        OneError(last, k);
        ErrorSnoc(CallErrors(rest), ErrorContent(e.value), k);
      }
    }
  }

  /** A client call that could not be parsed. */
  predicate IsInvalidCall(p: Part) { p.CallContent? && IsTrue(p.call.invalid) && !IsTrue(p.call.providerExecuted) }

  /** Each client call of the content that could not be parsed has its error there. */
  ghost predicate AnswersInvalid(content: seq<Part>) {
    forall i :: 0 <= i < |content| && IsInvalidCall(content[i]) ==> HasErrorOf(content, content[i].call.id)
  }

  /** Generated content is replayable: it is of the form that repairs can be
      patched into, and answers every client call that could not be parsed. */
  lemma {:induction false} ContentIsGenerated(env: Env, items: seq<ModelOutput>)
    requires GeneratedContent(env, items).Content?
    ensures ResultPatch.Generated(GeneratedContent(env, items).parts)
    ensures AnswersInvalid(GeneratedContent(env, items).parts)
  {
    var calls := Parsed(env, items);
    var parts, errors := AddItems(env, calls, items, |items|).parts, CallErrors(calls);
    var all := parts + errors;
    ItemParts(env, calls, items, |items|);
    ErrorsOfCalls(calls, "");
    hide AddItems, Parsed, CallErrors, IsCall, HasErrorOf, Fails, ErrorAfter;
    assert GeneratedParts(all);
    forall k | HasErrorOf(all, k) ensures IsCall(all, k) {
      ErrorHasCall(env, items, parts, k);
    }
    forall i | 0 <= i < |all| && IsInvalidCall(all[i])
      ensures HasErrorOf(all, all[i].call.id)
    {
      assert i < |parts| && parts[i] == all[i] && IsOfModel(parts[i], calls);
      InvalidHasError(env, items, parts, all[i].call);
    }
  }

  lemma {:induction false} ErrorHasCall(env: Env, items: seq<ModelOutput>, parts: seq<Part>, k: string)
    requires forall i :: 0 <= i < |parts| ==> IsOfModel(parts[i], Parsed(env, items))
    requires forall i :: 0 <= i < |items| && items[i].GenCall? ==> IsCall(parts, items[i].raw.id)
    requires HasErrorOf(parts + CallErrors(Parsed(env, items)), k)
    ensures IsCall(parts + CallErrors(Parsed(env, items)), k)
  {
    hide Parsed, CallErrors, IsCall, ParsedItem;
    var calls := Parsed(env, items);
    ErrorAdd(parts, CallErrors(calls), k);
    ErrorsOfCalls(calls, k);
    assert Fails(calls, k);
    var j :| 0 <= j < |calls| && calls[j].id == k && ErrorAfter(calls[j]).Some?;
    var i := ParsedFrom(env, items, calls[j]);
    InvalidKeepsId(env, items[i]);
    CallAdd(parts, CallErrors(calls), k);
  }

  lemma {:induction false} InvalidHasError(env: Env, items: seq<ModelOutput>, parts: seq<Part>, call: ToolCall)
    requires call in Parsed(env, items) && IsTrue(call.invalid) && !IsTrue(call.providerExecuted)
    ensures HasErrorOf(parts + CallErrors(Parsed(env, items)), call.id)
  {
    hide Parsed, CallErrors, HasErrorOf, ParsedItem;
    var calls := Parsed(env, items);
    var i := ParsedFrom(env, items, call);
    InvalidKeepsId(env, items[i]);
    var j :| 0 <= j < |calls| && calls[j] == call;
    assert Fails(calls, call.id);
    ErrorsOfCalls(calls, call.id);
    ErrorAdd(parts, CallErrors(calls), call.id);
  }

  // ----- The history with the response

  function Replay(m: Message): HistoryMessage {
    match m
    case Assistant(parts) => AssistantTurn(parts, None)
    case Tool(answers) => ToolTurn(answers, None)
  }

  /** The response messages of the content, as they are appended to the history. */
  function Replayed(content: seq<Part>): seq<HistoryMessage> {
    var messages := Messages(content);
    seq(|messages|, i requires 0 <= i < |messages| => Replay(messages[i]))
  }

  function ResponseResults(content: seq<Part>): seq<ToolPart> { ToolMessageContent(content, CallOrder(content)) }

  /** What the check sees of the response: its client calls, then its results. */
  function StepEvents(content: seq<Part>): seq<History.Event> {
    PartEvents(AssistantParts(content)) + ResultEvents(ResponseResults(content))
  }

  lemma {:induction false} HistorySnoc(messages: seq<HistoryMessage>, m: HistoryMessage)
    ensures HistoryEvents(messages + [m]) == HistoryEvents(messages) + TurnEvents(m)
  {
    assert (messages + [m])[..|messages|] == messages;
  }

  lemma {:induction false} ReplayedEvents(history: seq<HistoryMessage>, content: seq<Part>)
    ensures HistoryEvents(history + Replayed(content)) == HistoryEvents(history) + StepEvents(content)
  {
    hide AssistantParts, ToolMessageContent, CallOrder, PartEvents, ResultEvents, HistoryEvents;
    var parts, answers := AssistantParts(content), ResponseResults(content);
    TwoTurns(history, parts, answers);
    ReplayedTurns(content);
  }

  lemma {:induction false} ReplayedTurns(content: seq<Part>)
    ensures Replayed(content) == Turns(AssistantParts(content), ResponseResults(content))
  {
    hide AssistantParts, ToolMessageContent, CallOrder;
    var parts, answers := AssistantParts(content), ResponseResults(content);
    if parts == [] || answers == [] {
      assert |Replayed(content)| == |Turns(parts, answers)| <= 1;
    } else {
      assert Messages(content) == [Assistant(parts), Tool(answers)];
      assert Turns(parts, answers) == [AssistantTurn(parts, None), ToolTurn(answers, None)];
    }
  }

  function Turns(parts: seq<AssistantPart>, answers: seq<ToolPart>): seq<HistoryMessage> {
    (if parts == [] then [] else [AssistantTurn(parts, None)]) + if answers == [] then [] else [ToolTurn(answers, None)]
  }

  lemma {:induction false} TwoTurns(history: seq<HistoryMessage>, parts: seq<AssistantPart>, answers: seq<ToolPart>)
    ensures HistoryEvents(history + Turns(parts, answers)) == HistoryEvents(history) + (PartEvents(parts) + ResultEvents(answers))
  {
    hide *;
    var first, events := OneTurn(parts), HistoryEvents(history);
    OneTurnEvents(history, parts);
    TurnsAre(parts, answers);
    if answers == [] {
      assert first + [] == first && PartEvents(parts) + [] == PartEvents(parts);
    } else {
      HistorySnoc(history + first, ToolTurn(answers, None));
      assert history + (first + [ToolTurn(answers, None)]) == (history + first) + [ToolTurn(answers, None)];
      Assoc(events, PartEvents(parts), ResultEvents(answers));
    }
  }

  function OneTurn(parts: seq<AssistantPart>): seq<HistoryMessage> { if parts == [] then [] else [AssistantTurn(parts, None)] }

  lemma {:induction false} TurnsAre(parts: seq<AssistantPart>, answers: seq<ToolPart>)
    ensures Turns(parts, answers) == OneTurn(parts) + if answers == [] then [] else [ToolTurn(answers, None)]
    ensures answers == [] ==> ResultEvents(answers) == []
    ensures TurnEvents(ToolTurn(answers, None)) == ResultEvents(answers)
  {
  }

  lemma {:induction false} OneTurnEvents(history: seq<HistoryMessage>, parts: seq<AssistantPart>)
    ensures HistoryEvents(history + OneTurn(parts)) == HistoryEvents(history) + PartEvents(parts)
  {
    if parts == [] {
      assert history + [] == history;
    } else {
      HistorySnoc(history, AssistantTurn(parts, None));
    }
  }

  /** A client call of the content. */
  predicate IsClientCall(content: seq<Part>, i: nat) {
    i < |content| && content[i].CallContent? && !IsTrue(content[i].call.providerExecuted)
  }

  lemma {:induction false} EventIsCall(content: seq<Part>, n: nat) returns (i: nat)
    requires n < |PartEvents(AssistantParts(content))|
    ensures IsClientCall(content, i) && PartEvents(AssistantParts(content))[n] == History.CallMade(content[i].call.id)
  {
    var rest, p := content[..|content| - 1], content[|content| - 1];
    assert content == rest + [p];
    AssistantSnoc(rest, [p]);
    PartEventsAdd(AssistantParts(rest), AssistantParts([p]));
    if n < |PartEvents(AssistantParts(rest))| {
      i := EventIsCall(rest, n);
    } else {
      i := |content| - 1;
      OneCallEvent(p);
    }
  }

  lemma {:induction false} OneCallEvent(p: Part)
    ensures PartEvents(AssistantParts([p])) ==
            if p.CallContent? && !IsTrue(p.call.providerExecuted) then [History.CallMade(p.call.id)] else []
  {
    AssistantOne(p);
    hide AssistantParts;
    var parts := AssistantParts([p]);
    if parts != [] { assert parts[..0] == [] && PartEvents(parts[..0]) == []; }
  }

  // ----- The results of the response

  predicate GivesResult(answers: seq<ToolPart>, k: string) { Answers(Results(answers), k) }

  lemma {:induction false} AnswersSnoc(results: seq<ResultItem>, more: seq<ResultItem>, k: string)
    ensures Answers(results + more, k) <==> Answers(results, k) || Answers(more, k)
  {
    var all := results + more;
    if Answers(results, k) {
      var j :| 0 <= j < |results| && results[j].callId == k;
      assert all[j] == results[j];
    }
    if Answers(more, k) {
      var j :| 0 <= j < |more| && more[j].callId == k;
      assert all[|results| + j] == more[j];
    }
  }

  lemma {:induction false} ResultIsGiven(answers: seq<ToolPart>, k: string) returns (n: nat)
    requires GivesResult(answers, k)
    ensures n < |ResultEvents(answers)| && ResultEvents(answers)[n] == History.ResultGiven(k)
  {
    var rest, last := answers[..|answers| - 1], answers[|answers| - 1];
    AnswersSnoc(Results(rest), if last.ClientResult? then [last.result] else [], k);
    if GivesResult(rest, k) { n := ResultIsGiven(rest, k); } else { n := |ResultEvents(rest)|; }
  }

  lemma {:induction false} ResultsAdd(a: seq<ToolPart>, b: seq<ToolPart>)
    ensures Results(a + b) == Results(a) + Results(b)
  {
    if b == [] {
      assert a + b == a;
    } else {
      assert (a + b)[..|a + b| - 1] == a + b[..|b| - 1];
      ResultsAdd(a, b[..|b| - 1]);
    }
  }

  lemma {:induction false} ErrorGivesResult(content: seq<Part>, k: string)
    requires HasErrorOf(content, k)
    ensures GivesResult(ToolParts(content), k)
  {
    var rest, p := content[..|content| - 1], content[|content| - 1];
    assert content == rest + [p];
    ErrorSnoc(rest, p, k);
    ResultsAdd(ToolParts(rest), ToolPartsOf(p));
    AnswersSnoc(Results(ToolParts(rest)), Results(ToolPartsOf(p)), k);
    if HasErrorOf(rest, k) {
      ErrorGivesResult(rest, k);
    } else {
      var item := ResultItem(p.error.id, Some(p.error.name), OutputOf(p.error.error, true), p.error.metadata);
      assert ToolPartsOf(p) == [ClientResult(item)];
      ResultsSnoc([], ClientResult(item));
      assert [] + [ClientResult(item)] == [ClientResult(item)];
      assert Results(ToolPartsOf(p))[0].callId == k;
    }
  }

  lemma {:induction false} SortedGivesResult(content: seq<Part>, k: string)
    requires HasErrorOf(content, k)
    ensures GivesResult(ResponseResults(content), k)
  {
    hide *;
    ErrorGivesResult(content, k);
    ToolMessageIsSorted(content, CallOrder(content));
    SameAnswers(ToolParts(content), ToolMessageContent(content, CallOrder(content)), k);
    ResponseResultsAre(content);
  }

  lemma {:induction false} ResponseResultsAre(content: seq<Part>)
    ensures ResponseResults(content) == ToolMessageContent(content, CallOrder(content))
  {
  }

  lemma {:induction false} SameAnswers(a: seq<ToolPart>, b: seq<ToolPart>, k: string)
    requires multiset(Results(a)) == multiset(Results(b)) && GivesResult(a, k)
    ensures GivesResult(b, k)
  {
    hide Results;
    var results, sorted := Results(a), Results(b);
    var j :| 0 <= j < |results| && results[j].callId == k;
    assert results[j] in multiset(results);
    assert results[j] in multiset(sorted);
    var i :| 0 <= i < |sorted| && sorted[i] == results[j];
    assert sorted[i].callId == k;
  }

  /** Neither part of the response is a turn. */
  lemma {:induction false} NoTurnInStep(content: seq<Part>)
    ensures forall n :: 0 <= n < |StepEvents(content)| ==> StepEvents(content)[n] != History.Turn
  {
    hide AssistantParts, ResponseResults;
    NoTurnInParts(AssistantParts(content));
    NoTurnInResults(ResponseResults(content));
  }

  lemma {:induction false} NoTurnInParts(parts: seq<AssistantPart>)
    ensures forall n :: 0 <= n < |PartEvents(parts)| ==> PartEvents(parts)[n].CallMade?
  {
    if parts != [] { NoTurnInParts(parts[..|parts| - 1]); }
  }

  lemma {:induction false} NoTurnInResults(answers: seq<ToolPart>)
    ensures forall n :: 0 <= n < |ResultEvents(answers)| ==> ResultEvents(answers)[n].ResultGiven?
  {
    if answers != [] { NoTurnInResults(answers[..|answers| - 1]); }
  }

  /** An invalid client call among the events of the step is answered by them. */
  lemma {:induction false} InvalidIsAnswered(before: seq<History.Event>, content: seq<Part>, n: nat, i: nat)
    requires AnswersInvalid(content) && n < |PartEvents(AssistantParts(content))|
    requires i < |content| && IsInvalidCall(content[i])
    requires PartEvents(AssistantParts(content))[n] == History.CallMade(content[i].call.id)
    ensures var all := before + StepEvents(content); History.Answered(all, |before| + n)
  {
    hide AssistantParts, ResponseResults, PartEvents, ResultEvents, GivesResult, HasErrorOf;
    var k := content[i].call.id;
    SortedGivesResult(content, k);
    var r := ResultIsGiven(ResponseResults(content), k);
    NoTurnInParts(AssistantParts(content));
    NoTurnInResults(ResponseResults(content));
    LaterResult(before, PartEvents(AssistantParts(content)), ResultEvents(ResponseResults(content)), n, r);
  }

  lemma {:induction false} LaterResult(before: seq<History.Event>, calls: seq<History.Event>, results: seq<History.Event>, n: nat, r: nat)
    requires n < |calls| && r < |results| && calls[n].CallMade? && results[r] == History.ResultGiven(calls[n].id)
    requires forall m :: 0 <= m < |calls| ==> calls[m].CallMade?
    requires forall m :: 0 <= m < |results| ==> results[m].ResultGiven?
    ensures var all := before + (calls + results); History.Answered(all, |before| + n)
  {
    var all, step := before + (calls + results), calls + results;
    var j := |before| + |calls| + r;
    assert step[n] == calls[n] && step[|calls| + r] == results[r];
    assert all[j] == results[r] && all[|before| + n] == calls[n];
    forall m | |before| <= m < |all| ensures all[m] != History.Turn {
      assert all[m] == step[m - |before|];
      if m - |before| >= |calls| { assert step[m - |before|] == results[m - |before| - |calls|]; }
    }
    assert History.NoTurn(all, |before| + n, j);
  }

  /** A valid client call of the content. */
  ghost predicate HasValidCall(content: seq<Part>, id: string) {
    exists i: nat :: IsClientCall(content, i) && content[i].call.id == id && !IsTrue(content[i].call.invalid)
  }

  /** A call that is not answered after the response, and not one before it, is
      a valid call of the response. */
  lemma {:induction false} UnansweredIsValid(before: seq<History.Event>, content: seq<Part>, m: nat)
    requires AnswersInvalid(content) && |before| <= m < |before + StepEvents(content)|
    requires (before + StepEvents(content))[m].CallMade? && !History.Answered(before + StepEvents(content), m)
    ensures HasValidCall(content, (before + StepEvents(content))[m].id)
  {
    hide AssistantParts, ResponseResults, PartEvents, ResultEvents, AnswersInvalid;
    var n := m - |before|;
    NoTurnInResults(ResponseResults(content));
    assert (before + StepEvents(content))[m] == StepEvents(content)[n];
    assert n < |PartEvents(AssistantParts(content))|;
    var i := EventIsCall(content, n);
    if IsTrue(content[i].call.invalid) { InvalidIsAnswered(before, content, n, i); }
  }

  /** What is checked of a history. */
  function Checked(instructions: Option<string>, history: seq<HistoryMessage>): seq<History.Event> {
    LeadEvents(instructions) + HistoryEvents(history)
  }

  lemma {:induction false} CheckedWithResponse(instructions: Option<string>, history: seq<HistoryMessage>, content: seq<Part>)
    ensures Checked(instructions, history + Replayed(content)) == Checked(instructions, history) + StepEvents(content)
  {
    hide LeadEvents, HistoryEvents, StepEvents, Replayed;
    ReplayedEvents(history, content);
    Assoc(LeadEvents(instructions), HistoryEvents(history), StepEvents(content));
  }

  /** The calls of the history are answered, with the response or by approvals
      of the history with the response. */
  ghost predicate HistoryStays(instructions: Option<string>, history: seq<HistoryMessage>, content: seq<Part>) {
    History.StaysAnswered(Checked(instructions, history), StepEvents(content), Approved(history + Replayed(content)))
  }

  /** Any history, extended by the response messages of content that answers its
      invalid calls: results are missing only for calls the response opened if
      and only if the calls of the history stay answered. Then they are valid
      calls of the response, and none when it has none. */
  lemma {:induction false} ResponseLeavesValidCallsOpen(files: Files, history: seq<HistoryMessage>, instructions: Option<string>,
                                                        content: seq<Part>)
    returns (m: nat)
    requires AnswersInvalid(content) && ConvertAll(files, history + Replayed(content)).Ok?
    ensures var all := history + Replayed(content);
            var prompt, events := Prompt(files, all, instructions), Checked(instructions, all);
            && (prompt.Err? ==>
                  && prompt.error.MissingToolResults?
                  && History.FirstMissing(prompt.error.toolCallIds, events, m, Approved(all)))
            && (HistoryStays(instructions, history, content) <==>
                  prompt.Ok? || History.OpenedFrom(prompt.error.toolCallIds, events, m, |Checked(instructions, history)|))
            && (HistoryStays(instructions, history, content) && prompt.Err? ==>
                  forall id :: id in prompt.error.toolCallIds ==> HasValidCall(content, id))
            && (HistoryStays(instructions, history, content) && (forall id :: !HasValidCall(content, id)) ==> prompt.Ok?)
  {
    var all := history + Replayed(content);
    var approved, prompt := Approved(all), Prompt(files, all, instructions);
    var before, more := Checked(instructions, history), StepEvents(content);
    AcceptedHistory(files, all, instructions);
    CheckedWithResponse(instructions, history, content);
    NoTurnInStep(content);
    m := 0;
    hide Prompt, ConvertAll, Replayed, StepEvents, HistoryEvents, LeadEvents, Approved, AnswersInvalid, HasValidCall;
    if prompt.Err? {
      var ids := prompt.error.toolCallIds;
      m :| History.FirstMissing(ids, before + more, m, approved);
      History.OnlyNewCallsMissing(before, more, approved, ids, m);
      assert ids[0] in ids;
      if HistoryStays(instructions, history, content) {
        forall id | id in ids ensures HasValidCall(content, id) {
          var i := History.OpenIsUnanswered(before + more, id, m);
          UnansweredIsValid(before, content, i);
        }
      }
    } else {
      History.AllAnsweredStays(before, more, approved);
    }
  }

  /** The calls of a history that has a prompt stay answered when its approvals
      stay; see `ApprovalsStay`. */
  lemma {:induction false} AcceptedHistoryStays(files: Files, history: seq<HistoryMessage>, instructions: Option<string>,
                                                content: seq<Part>)
    requires Prompt(files, history, instructions).Ok?
    requires Approved(history) <= Approved(history + Replayed(content))
    ensures HistoryStays(instructions, history, content)
  {
    AcceptedHistory(files, history, instructions);
    hide Prompt, ConvertAll, Replayed, StepEvents, HistoryEvents, LeadEvents, Approved;
    History.AnsweredStays(Checked(instructions, history), StepEvents(content), Approved(history),
                          Approved(history + Replayed(content)));
  }

  // ----- Approvals that stay

  lemma {:induction false} RequestsOfAdd(requests: map<string, string>, parts: seq<AssistantPart>)
    ensures RequestsOf(requests, parts) == requests + RequestsOf(map[], parts)
  {
    if parts != [] { RequestsOfAdd(requests, parts[..|parts| - 1]); }
  }

  lemma {:induction false} RequestsAdd(history: seq<HistoryMessage>, more: seq<HistoryMessage>)
    ensures Requests(history + more) == Requests(history) + Requests(more)
  {
    if more == [] {
      assert history + more == history;
    } else {
      var rest, last := more[..|more| - 1], more[|more| - 1];
      assert (history + more)[..|history + more| - 1] == history + rest;
      RequestsAdd(history, rest);
      if last.AssistantTurn? {
        RequestsOfAdd(Requests(history + rest), last.parts);
        RequestsOfAdd(Requests(rest), last.parts);
      }
      hide RequestsOf;
    }
  }

  /** The approvals of a history stay when no later request takes an approval id of it. */
  lemma {:induction false} ApprovalsStay(history: seq<HistoryMessage>, more: seq<HistoryMessage>)
    requires Requests(history).Keys !! Requests(more).Keys
    ensures Approved(history) <= Approved(history + more)
  {
    RequestsAdd(history, more);
    hide Requests;
    forall id | id in Approved(history) ensures id in Approved(history + more) {
      var a :| a in Requests(history) && HasResponse(history, a) && Requests(history)[a] == id;
      var k :| 0 <= k < |history| && Responds(history[k], a);
      assert Responds((history + more)[k], a);
      assert HasResponse(history + more, a) && Requests(history + more)[a] == id;
    }
  }

  /** A turn that makes a call, and asks for its approval under the id `a`. */
  function Asking(callId: string, providerExecuted: Option<bool>): HistoryMessage {
    AssistantTurn([CallPart(callId, "tool", Obj(map[]), providerExecuted, None),
                   ApprovalRequestPart("a", callId, None, None, None, None)], None)
  }

  const APPROVING: HistoryMessage := ToolTurn([ApprovalAnswer("a", true, None, None)], None)

  lemma {:induction false} AskingIs(files: Files, names: map<string, string>, callId: string, providerExecuted: Option<bool>)
    ensures ConvertMessage(files, names, Asking(callId, providerExecuted)).Ok?
    ensures TurnEvents(Asking(callId, providerExecuted)) == if IsTrue(providerExecuted) then [] else [History.CallMade(callId)]
    ensures RequestsOf(map[], Asking(callId, providerExecuted).parts) == map["a" := callId]
    ensures ConvertMessage(files, names, APPROVING).Ok? && TurnEvents(APPROVING) == []
  {
    var parts, answers := Asking(callId, providerExecuted).parts, APPROVING.answers;
    assert parts[..1] == [parts[0]] && [parts[0]][..0] == [] && answers[..0] == [];
    assert ConvertParts(files, names, parts[..1][..0]) == Ok([]);
    assert ConvertParts(files, names, parts[..1]).Ok?;
    assert PartEvents(parts[..1]) == if IsTrue(providerExecuted) then [] else [History.CallMade(callId)];
    assert PartEvents(parts) == PartEvents(parts[..1]) + [];
    assert RequestsOf(map[], parts[..1]) == map[];
    assert ConvertAnswers(names, answers[..0]) == Ok([]);
    assert ResultEvents(answers) == ResultEvents(answers[..0]) + [];
  }

  lemma {:induction false} OneMore(files: Files, messages: seq<HistoryMessage>, m: HistoryMessage)
    requires ConvertAll(files, messages).Ok? && ConvertMessage(files, Names(messages + [m]), m).Ok?
    ensures ConvertAll(files, messages + [m]).Ok?
    ensures HistoryEvents(messages + [m]) == HistoryEvents(messages) + TurnEvents(m)
    ensures Requests(messages + [m]) == Requests(messages) + if m.AssistantTurn? then RequestsOf(map[], m.parts) else map[]
  {
    hide ConvertMessage, TurnEvents, Names, RequestsOf;
    assert (messages + [m])[..|messages|] == messages;
    if m.AssistantTurn? { RequestsOfAdd(Requests(messages), m.parts); }
  }

  lemma {:induction false} ThreeTurns(files: Files)
    ensures var history := [Asking("c1", None), APPROVING];
            var all := history + [Asking("c2", Some(true))];
            && ConvertAll(files, history).Ok? && ConvertAll(files, all).Ok?
            && HistoryEvents(history) == [History.CallMade("c1")] && HistoryEvents(all) == [History.CallMade("c1")]
            && Requests(history) == map["a" := "c1"] && Requests(all) == map["a" := "c2"]
  {
    var one, two, three := [Asking("c1", None)], [Asking("c1", None), APPROVING], Asking("c2", Some(true));
    assert one == [] + [Asking("c1", None)] && two == one + [APPROVING];
    AskingIs(files, Names(one), "c1", None);
    AskingIs(files, Names(two), "c1", None);
    AskingIs(files, Names(two + [three]), "c2", Some(true));
    EmptyHistory(files);
    hide ConvertMessage, TurnEvents, Names, RequestsOf, ConvertAll, HistoryEvents, Requests, Asking;
    OneMore(files, [], one[0]);
    OneMore(files, one, APPROVING);
    OneMore(files, two, three);
  }

  lemma {:induction false} EmptyHistory(files: Files)
    ensures ConvertAll(files, []) == Ok([]) && HistoryEvents([]) == [] && Requests([]) == map[]
  {
  }

  lemma {:induction false} ApprovedUnder(messages: seq<HistoryMessage>, callId: string)
    requires Requests(messages) == map["a" := callId] && |messages| >= 2 && messages[1] == APPROVING
    ensures Approved(messages) == {callId}
  {
    hide Requests;
    assert APPROVING.answers[0].approvalId == "a";
    assert Responds(messages[1], "a");
    assert HasResponse(messages, "a");
    var requests := Requests(messages);
    assert "a" in requests && requests["a"] == callId;
  }

  /** A call that the provider executes, and asks approval for under the id `a`. */
  const REUSING: seq<ModelOutput> := [GenCall(RawToolCall("c2", "tool", "", Some(true), Some(true), None), None), GenApproval("a", "c2")]

  /** When one does, an approved call of the history is reported missing. */
  lemma {:induction false} ReusedApprovalIdLosesApproval(files: Files, env: Env)
    requires env.tools.None?
    ensures GeneratedContent(env, REUSING).Content?
    ensures var history := [Asking("c1", None), APPROVING];
            && Prompt(files, history, None).Ok?
            && Prompt(files, history + Replayed(GeneratedContent(env, REUSING).parts), None) == Err(MissingToolResults(["c1"]))
  {
    var history := [Asking("c1", None), APPROVING];
    ReusingIs(env);
    var all := history + [Asking("c2", Some(true))];
    ThreeTurns(files);
    ApprovedUnder(history, "c1");
    ApprovedUnder(all, "c2");
    CheckedIsHistory(files, history, None);
    CheckedIsHistory(files, all, None);
    OneOpenCall({"c1"});
    OneOpenCall({"c2"});
    hide ConvertAll, HistoryEvents, Requests, Approved, Combine, Events, Asking, Replayed, GeneratedContent;
    assert [] + [History.CallMade("c1")] == [History.CallMade("c1")];
  }

  lemma {:induction false} ReusingIs(env: Env)
    requires env.tools.None?
    ensures GeneratedContent(env, REUSING).Content?
    ensures Replayed(GeneratedContent(env, REUSING).parts) == [Asking("c2", Some(true))]
  {
    var call := ToolCall("c2", "tool", Obj(map[]), Some(true), Some(true), None, None, None);
    var approval := ApprovalRequest("a", call, None, None, None, None);
    var content := [CallContent(call), ApprovalContent(approval)];
    ReusingParsed(env, call);
    ReusingAdded(env, call, approval);
    assert [call][..0] == [] && CallErrors([call]) == [];
    assert content + [] == content;
    hide Parsed, AddItems, CallErrors, Replayed, Asking;
    ReplayOfApproval(call, approval);
  }

  lemma {:induction false} ReusingParsed(env: Env, call: ToolCall)
    requires env.tools.None? && call == ToolCall("c2", "tool", Obj(map[]), Some(true), Some(true), None, None, None)
    ensures Parsed(env, REUSING) == [call]
  {
    var one := [REUSING[0]];
    assert ParsedItem(env, REUSING[0]) == call;
    hide ParsedItem;
    assert REUSING[..1] == one && one[..0] == [];
    assert Parsed(env, one) == [] + [call];
  }

  lemma {:induction false} ReusingAdded(env: Env, call: ToolCall, approval: ApprovalRequest)
    requires call.id == "c2" && approval == ApprovalRequest("a", call, None, None, None, None)
    ensures AddItems(env, [call], REUSING, 2) == Content([CallContent(call), ApprovalContent(approval)])
  {
    assert AddItems(env, [call], REUSING, 0) == Content([]);
    assert FindParsed([call], "c2") == Some(call);
    assert AddItems(env, [call], REUSING, 1) == Content([] + [CallContent(call)]);
    assert [CallContent(call)] + [ApprovalContent(approval)] == [CallContent(call), ApprovalContent(approval)];
  }

  lemma {:induction false} ReplayOfApproval(call: ToolCall, approval: ApprovalRequest)
    requires call == ToolCall("c2", "tool", Obj(map[]), Some(true), Some(true), None, None, None)
    requires approval == ApprovalRequest("a", call, None, None, None, None)
    ensures Replayed([CallContent(call), ApprovalContent(approval)]) == [Asking("c2", Some(true))]
  {
    var content := [CallContent(call), ApprovalContent(approval)];
    var asking := Asking("c2", Some(true));
    AssistantOne(content[0]);
    AssistantOne(content[1]);
    AssistantSnoc([content[0]], [content[1]]);
    assert [content[0]] + [content[1]] == content;
    assert AssistantParts(content) == asking.parts;
    ToolMessageIsWrap(content, CallOrder(content));
    ResultsOne(content[0]);
    ResultsOfSnoc([content[0]], content[1]);
    SortLength([], CallOrder(content));
    assert ToolMessageContent(content, CallOrder(content)) == [];
    assert Messages(content) == [Assistant(asking.parts)];
  }

  lemma {:induction false} OneOpenCall(approved: set<string>)
    ensures History.CheckEvents([History.CallMade("c1")], approved)
         == if "c1" in approved then Ok(()) else Err(MissingToolResults(["c1"]))
  {
    var events := [History.CallMade("c1")];
    assert History.After(events, 0, approved) == History.Open([]);
    assert History.After(events, 1, approved) == History.Open(["c1"]);
    assert ["c1"][..0] == [];
    assert History.Without(["c1"], approved) == if "c1" in approved then [] else ["c1"];
  }
}
