/**
 Applying a repair to a finished result: the content and the response messages
 of each step are patched in place. For steps as text generation builds them
 the patch gives the messages that rebuilding gives, exactly when the repaired
 call keeps the provider flag and metadata of the one it replaces.
 */
module ResultPatch {
  import opened Wrappers
  import opened Content
  import opened ResponseMessages
  import opened TextStream
  import opened ToolCallRepair

  // ----- The patch

  /** The tool error of the repaired call, when it is still invalid. */
  function ErrorAfter(repaired: ToolCall): Option<TypedToolError> {
    if IsTrue(repaired.dynamic) then InvalidCallError(repaired) else None
  }

  predicate IsErrorOf(p: Part, id: string) { p.ErrorContent? && p.error.id == id && !IsTrue(p.error.providerExecuted) }

  /** A part after the patch, if it is kept. */
  function PatchPart(p: Part, id: string, repaired: ToolCall): (r: seq<Part>)
    ensures |r| <= 1
  {
    if IsErrorOf(p, id) then
      var e := ErrorAfter(repaired);
      if e.Some? then [ErrorContent(e.value)] else []
    else if p.CallContent? && p.call.id == id then [CallContent(repaired)]
    else if p.ApprovalContent? && p.approval.call.id == id then [ApprovalContent(p.approval.(call := repaired))]
    else [p]
  }

  function PatchContent(content: seq<Part>, id: string, repaired: ToolCall): seq<Part> {
    if content == [] then []
    else PatchContent(content[..|content| - 1], id, repaired) + PatchPart(content[|content| - 1], id, repaired)
  }

  predicate HasErrorOf(content: seq<Part>, id: string) { exists i :: 0 <= i < |content| && IsErrorOf(content[i], id) }

  function PatchAssistantPart(p: AssistantPart, id: string, repaired: ToolCall): AssistantPart {
    match p
    case CallPart(callId, name, input, providerExecuted, options) =>
      if callId != id then p
      else CallPart(repaired.id, repaired.name, ResponseInput(repaired.input, repaired.invalid), providerExecuted, options)
    case ApprovalRequestPart(approvalId, callId, reason, isAutomatic, signature, input) =>
      if callId != id then p else ApprovalRequestPart(approvalId, repaired.id, reason, isAutomatic, signature, input)
    case _ => p
  }

  function PatchParts(parts: seq<AssistantPart>, id: string, repaired: ToolCall): (r: seq<AssistantPart>)
    ensures |r| == |parts|
  {
    if parts == [] then []
    else PatchParts(parts[..|parts| - 1], id, repaired) + [PatchAssistantPart(parts[|parts| - 1], id, repaired)]
  }

  function PatchResult(r: ResultItem, e: TypedToolError): ResultItem {
    r.(callId := e.id, name := Some(e.name), output := OutputOf(e.error, true))
  }

  function PatchAnswer(p: ToolPart, id: string, e: Option<TypedToolError>): Option<ToolPart> {
    if p.ClientResult? && p.result.callId == id then
      if e.Some? then Some(ClientResult(PatchResult(p.result, e.value))) else None
    else Some(p)
  }

  function PatchAnswers(answers: seq<ToolPart>, id: string, e: Option<TypedToolError>): seq<ToolPart> {
    if answers == [] then []
    else
      var last := PatchAnswer(answers[|answers| - 1], id, e);
      PatchAnswers(answers[..|answers| - 1], id, e) + if last.Some? then [last.value] else []
  }

  function PatchMessage(m: Message, id: string, repaired: ToolCall, hadError: bool): Message {
    match m
    case Assistant(parts) => Assistant(PatchParts(parts, id, repaired))
    case Tool(answers) => if hadError then Tool(PatchAnswers(answers, id, ErrorAfter(repaired))) else m
  }

  function PatchMessages(messages: seq<Message>, id: string, repaired: ToolCall, hadError: bool): seq<Message> {
    if messages == [] then []
    else
      var last := PatchMessage(messages[|messages| - 1], id, repaired, hadError);
      PatchMessages(messages[..|messages| - 1], id, repaired, hadError) + if last == Tool([]) then [] else [last]
  }

  function PatchStep(step: StepRecord, id: string, repaired: ToolCall): StepRecord {
    step.(content := PatchContent(step.content, id, repaired),
          messages := PatchMessages(step.messages, id, repaired, HasErrorOf(step.content, id)))
  }

  // ----- Steps as text generation builds them

  predicate IsCall(content: seq<Part>, id: string) {
    exists i :: 0 <= i < |content| && content[i].CallContent? && content[i].call.id == id
  }

  /** No approval responses, and client results only as errors. */
  predicate IsGeneratedPart(p: Part) {
    match p
    case ApprovalResponseContent(_) => false
    case ApprovalContent(a) => a.inputSchemaInput.None?
    case ResultContent(r) => IsTrue(r.providerExecuted)
    case ErrorContent(e) => IsTrue(e.providerExecuted) || e.metadata.None?
    case _ => true
  }

  ghost predicate GeneratedParts(content: seq<Part>) {
    forall i :: 0 <= i < |content| ==> IsGeneratedPart(content[i])
  }

  /** The client errors are those of calls of the step. */
  ghost predicate ErrorsHaveCalls(content: seq<Part>) {
    forall k :: HasErrorOf(content, k) ==> IsCall(content, k)
  }

  ghost predicate Generated(content: seq<Part>) { GeneratedParts(content) && ErrorsHaveCalls(content) }

  predicate KeepsFlag(p: Part, id: string, repaired: ToolCall) {
    p.CallContent? && p.call.id == id ==>
      p.call.providerExecuted == repaired.providerExecuted && p.call.metadata == repaired.metadata
  }

  /** The repaired call has the flag and the metadata of the call it replaces. */
  ghost predicate KeepsFlags(content: seq<Part>, id: string, repaired: ToolCall) {
    forall i :: 0 <= i < |content| ==> KeepsFlag(content[i], id, repaired)
  }

  /** The repaired call may have a new id when it is valid, but no other call's. */
  predicate FreshId(content: seq<Part>, id: string, repaired: ToolCall) {
    repaired.id == id || (ErrorAfter(repaired).None? && !IsCall(content, repaired.id))
  }

  // ----- The assistant message

  lemma {:induction false} AssistantSnoc(content: seq<Part>, more: seq<Part>)
    requires |more| <= 1
    ensures AssistantParts(content + more) == AssistantParts(content) + AssistantParts(more)
    ensures |AssistantParts(more)| <= 1
  {
    if more == [] {
      assert content + more == content;
    } else {
      assert (content + more)[..|content|] == content && more[..0] == [];
    }
  }

  lemma {:induction false} PatchPartsAdd(parts: seq<AssistantPart>, more: seq<AssistantPart>, id: string, repaired: ToolCall)
    requires |more| <= 1
    ensures PatchParts(parts + more, id, repaired) == PatchParts(parts, id, repaired) + PatchParts(more, id, repaired)
  {
    if more == [] {
      assert parts + more == parts;
    } else {
      assert (parts + more)[..|parts|] == parts;
    }
  }

  lemma {:induction false} PartPatched(p: Part, id: string, repaired: ToolCall)
    requires IsGeneratedPart(p)
    ensures var was, now := AssistantParts([p]), AssistantParts(PatchPart(p, id, repaired));
            |now| == |was| && (now == PatchParts(was, id, repaired) <==> KeepsFlag(p, id, repaired))
  {
    hide *;
    AssistantOne(p);
    AssistantPartPatched(p, id, repaired);
    var patched := PatchPart(p, id, repaired);
    AssistantNone();
    if patched != [] { AssistantOne(patched[0]); assert patched == [patched[0]]; }
    PatchPartsOne(AssistantParts([p]), id, repaired);
  }

  lemma {:induction false} AssistantNone()
    ensures AssistantParts([]) == []
  {
  }

  lemma {:induction false} PatchPartsOne(parts: seq<AssistantPart>, id: string, repaired: ToolCall)
    requires |parts| <= 1
    ensures PatchParts(parts, id, repaired) == if parts == [] then [] else [PatchAssistantPart(parts[0], id, repaired)]
  {
  }

  lemma {:induction false} AssistantPartPatched(p: Part, id: string, repaired: ToolCall)
    requires IsGeneratedPart(p)
    ensures var patched, was := PatchPart(p, id, repaired), AssistantPartOf(p);
            && |patched| <= 1
            && (patched == [] ==> was.None? && KeepsFlag(p, id, repaired))
            && (patched != [] ==> AssistantPartOf(patched[0]).Some? == was.Some? && (was.None? ==> KeepsFlag(p, id, repaired)))
            && (patched != [] && was.Some? ==>
                  (AssistantPartOf(patched[0]).value == PatchAssistantPart(was.value, id, repaired) <==> KeepsFlag(p, id, repaired)))
  {
  }

  lemma {:induction false} AssistantOne(p: Part)
    ensures AssistantParts([p]) == if AssistantPartOf(p).Some? then [AssistantPartOf(p).value] else []
  {
    assert [p][..0] == [];
  }

  /** Two sequences that agree in length part by part agree when the parts do. */
  lemma {:induction false} EqualParts<T>(a: seq<T>, x: seq<T>, b: seq<T>, y: seq<T>)
    requires |a| == |b| && |x| == |y|
    ensures a + x == b + y <==> a == b && x == y
  {
    assert (a + x)[..|a|] == a && (a + x)[|a|..] == x;
    assert (b + y)[..|b|] == b && (b + y)[|b|..] == y;
  }

  lemma {:induction false} PatchSnoc(content: seq<Part>, p: Part, id: string, repaired: ToolCall)
    ensures PatchContent(content + [p], id, repaired) == PatchContent(content, id, repaired) + PatchPart(p, id, repaired)
    ensures KeepsFlags(content + [p], id, repaired) <==> KeepsFlags(content, id, repaired) && KeepsFlag(p, id, repaired)
  {
    var all := content + [p];
    assert all[..|content|] == content;
    hide KeepsFlag, PatchPart;
    if KeepsFlags(all, id, repaired) {
      assert forall i :: 0 <= i < |content| ==> content[i] == all[i];
      assert all[|content|] == p;
    }
  }

  lemma {:induction false} AssistantPatched(content: seq<Part>, id: string, repaired: ToolCall)
    requires GeneratedParts(content)
    ensures |AssistantParts(PatchContent(content, id, repaired))| == |AssistantParts(content)|
    ensures AssistantParts(PatchContent(content, id, repaired)) == PatchParts(AssistantParts(content), id, repaired)
       <==> KeepsFlags(content, id, repaired)
  {
    if content != [] {
      var rest, p := content[..|content| - 1], content[|content| - 1];
      assert rest + [p] == content;
      AssistantPatched(rest, id, repaired);
      AssistantPatchedNext(rest, p, id, repaired);
      PatchSnoc(rest, p, id, repaired);
      hide AssistantParts, PatchParts, KeepsFlags, KeepsFlag, PatchContent;
    }
  }

  lemma {:induction false} AssistantPatchedNext(rest: seq<Part>, p: Part, id: string, repaired: ToolCall)
    requires IsGeneratedPart(p)
    requires |AssistantParts(PatchContent(rest, id, repaired))| == |AssistantParts(rest)|
    ensures var content := rest + [p];
            var patched := AssistantParts(PatchContent(content, id, repaired));
            && |patched| == |AssistantParts(content)|
            && (patched == PatchParts(AssistantParts(content), id, repaired) <==>
                AssistantParts(PatchContent(rest, id, repaired)) == PatchParts(AssistantParts(rest), id, repaired)
                && KeepsFlag(p, id, repaired))
  {
    hide *;
    var before, patched := PatchContent(rest, id, repaired), PatchPart(p, id, repaired);
    PatchSnoc(rest, p, id, repaired);
    PartPatched(p, id, repaired);
    AssistantSnoc(before, patched);
    AssistantSnoc(rest, [p]);
    PatchPartsAdd(AssistantParts(rest), AssistantParts([p]), id, repaired);
    EqualParts(AssistantParts(before), AssistantParts(patched),
               PatchParts(AssistantParts(rest), id, repaired), PatchParts(AssistantParts([p]), id, repaired));
  }

  // ----- The order of calls

  function NextOrder(order: map<string, nat>, p: Part): map<string, nat> {
    if p.CallContent? && p.call.id !in order then order[p.call.id := |order|] else order
  }

  lemma {:induction false} OrderSnoc(content: seq<Part>, p: Part)
    ensures CallOrder(content + [p]) == NextOrder(CallOrder(content), p)
  {
    assert (content + [p])[..|content|] == content;
  }

  /** The same order, but for one id that may have a new name. */
  ghost predicate SameOrder(order: map<string, nat>, order': map<string, nat>, id: string, id': string) {
    && |order| == |order'| && (id in order <==> id' in order')
    && (forall k :: k != id && k != id' ==> (k in order <==> k in order'))
    && (forall k :: k in order && k in order' && (k != id || id == id') ==> order[k] == order'[k])
    && (id != id' ==> id !in order' && id' !in order)
  }

  lemma {:induction false} SameOrderNext(order: map<string, nat>, order': map<string, nat>, p: Part, id: string, repaired: ToolCall)
    requires SameOrder(order, order', id, repaired.id)
    requires p.CallContent? && p.call.id == repaired.id ==> id == repaired.id
    ensures var p' := if p.CallContent? && p.call.id == id then CallContent(repaired) else p;
            SameOrder(NextOrder(order, p), NextOrder(order', p'), id, repaired.id)
  {
    if p.CallContent? {
      if p.call.id == id { SameOrderRenamed(order, order', id, repaired.id); } else { SameOrderOther(order, order', id, repaired.id, p.call.id); }
    }
  }

  function Placed(order: map<string, nat>, k: string): map<string, nat> { if k in order then order else order[k := |order|] }

  lemma {:induction false} SameOrderRenamed(order: map<string, nat>, order': map<string, nat>, id: string, id': string)
    requires SameOrder(order, order', id, id')
    ensures SameOrder(Placed(order, id), Placed(order', id'), id, id')
  {
  }

  lemma {:induction false} SameOrderOther(order: map<string, nat>, order': map<string, nat>, id: string, id': string, k: string)
    requires SameOrder(order, order', id, id') && k != id && k != id'
    ensures SameOrder(Placed(order, k), Placed(order', k), id, id')
  {
  }

  lemma {:induction false} CallIsSnoc(content: seq<Part>, p: Part, k: string)
    ensures IsCall(content + [p], k) <==> IsCall(content, k) || (p.CallContent? && p.call.id == k)
  {
    var all := content + [p];
    if IsCall(content, k) {
      var i :| 0 <= i < |content| && content[i].CallContent? && content[i].call.id == k;
      assert all[i] == content[i];
    }
    if p.CallContent? && p.call.id == k { assert all[|content|] == p; }
  }

  /** Renaming a call keeps the places of all calls. */
  lemma {:induction false} OrderPatched(content: seq<Part>, id: string, repaired: ToolCall)
    requires repaired.id == id || !IsCall(content, repaired.id)
    ensures SameOrder(CallOrder(content), CallOrder(PatchContent(content, id, repaired)), id, repaired.id)
  {
    if content != [] {
      var rest, p := content[..|content| - 1], content[|content| - 1];
      var before, patched := PatchContent(rest, id, repaired), PatchPart(p, id, repaired);
      assert content == rest + [p];
      assert patched == [] || patched == [patched[0]];
      assert !p.CallContent? ==> patched == [] || !patched[0].CallContent?;
      assert p.CallContent? ==> patched == if p.call.id == id then [CallContent(repaired)] else [p];
      hide CallOrder, SameOrder, IsCall, PatchPart;
      CallIsSnoc(rest, p, repaired.id);
      OrderPatched(rest, id, repaired);
      OrderSnoc(rest, p);
      SameOrderNext(CallOrder(rest), CallOrder(before), p, id, repaired);
      if patched != [] { OrderSnoc(before, patched[0]); } else { assert before + [] == before; }
    }
  }

  // ----- The tool message

  function Wrap(results: seq<ResultItem>): (parts: seq<ToolPart>)
    ensures |parts| == |results|
  {
    if results == [] then [] else Wrap(results[..|results| - 1]) + [ClientResult(results[|results| - 1])]
  }

  /** Without approval answers the tool message is the sorted results. */
  lemma {:induction false} RefillIsWrap(parts: seq<ToolPart>, sorted: seq<ResultItem>)
    requires |sorted| == |Results(parts)| && forall i :: 0 <= i < |parts| ==> parts[i].ClientResult?
    ensures Refill(parts, sorted) == Wrap(sorted)
  {
    if parts != [] { RefillIsWrap(parts[..|parts| - 1], sorted[..|sorted| - 1]); }
  }

  function ResultsOf(content: seq<Part>): seq<ResultItem> { Results(ToolParts(content)) }

  lemma {:induction false} OnlyResults(content: seq<Part>)
    requires GeneratedParts(content)
    ensures forall i :: 0 <= i < |ToolParts(content)| ==> ToolParts(content)[i].ClientResult?
  {
    if content != [] { OnlyResults(content[..|content| - 1]); }
  }

  lemma {:induction false} ToolMessageIsWrap(content: seq<Part>, order: map<string, nat>)
    requires GeneratedParts(content)
    ensures ToolMessageContent(content, order) == Wrap(SortResults(ResultsOf(content), order))
  {
    OnlyResults(content);
    SortLength(ResultsOf(content), order);
    RefillIsWrap(ToolParts(content), SortResults(ResultsOf(content), order));
  }

  /** The patch of results: those of the call are rewritten or dropped. */
  function PatchItems(results: seq<ResultItem>, id: string, e: Option<TypedToolError>): seq<ResultItem> {
    if results == [] then []
    else PatchItems(results[..|results| - 1], id, e) + PatchItem(results[|results| - 1], id, e)
  }

  function PatchItem(r: ResultItem, id: string, e: Option<TypedToolError>): seq<ResultItem> {
    if r.callId != id then [r] else if e.Some? then [PatchResult(r, e.value)] else []
  }

  lemma {:induction false} PatchItemsSnoc(results: seq<ResultItem>, r: ResultItem, id: string, e: Option<TypedToolError>)
    ensures PatchItems(results + [r], id, e) == PatchItems(results, id, e) + PatchItem(r, id, e)
  {
    assert (results + [r])[..|results|] == results;
  }

  lemma {:induction false} WrapPatched(results: seq<ResultItem>, id: string, e: Option<TypedToolError>)
    ensures PatchAnswers(Wrap(results), id, e) == Wrap(PatchItems(results, id, e))
  {
    if results != [] {
      var rest, r := results[..|results| - 1], results[|results| - 1];
      WrapPatched(rest, id, e);
      assert Wrap(results)[..|rest|] == Wrap(rest);
      var items := PatchItem(r, id, e);
      if items != [] {
        var before := PatchItems(rest, id, e);
        assert (before + items)[..|before|] == before;
        assert Wrap(before + items) == Wrap(before) + [ClientResult(items[0])];
      } else {
        assert PatchItems(rest, id, e) + [] == PatchItems(rest, id, e);
      }
    }
  }

  lemma {:induction false} ResultsOne(p: Part)
    requires IsGeneratedPart(p)
    ensures ResultsOf([p]) == ErrorItem(p)
    ensures ToolPartsOf(p) == Wrap(ErrorItem(p))
  {
    assert [p][..0] == [];
    assert ToolParts([p]) == ToolPartsOf(p);
    if p.ErrorContent? && !IsTrue(p.error.providerExecuted) {
      var r := ResultItem(p.error.id, Some(p.error.name), OutputOf(p.error.error, true), None);
      assert ToolPartsOf(p) == [] + [ClientResult(r)];
      ResultsSnoc([], ClientResult(r));
      assert Wrap([r]) == [ClientResult(r)];
    } else {
      assert ToolPartsOf(p) == [];
    }
  }

  /** The result a generated part is replayed as. */
  function ErrorItem(p: Part): seq<ResultItem> {
    if p.ErrorContent? && !IsTrue(p.error.providerExecuted)
    then [ResultItem(p.error.id, Some(p.error.name), OutputOf(p.error.error, true), None)] else []
  }

  lemma {:induction false} ResultsOfSnoc(content: seq<Part>, p: Part)
    requires IsGeneratedPart(p)
    ensures ResultsOf(content + [p]) == ResultsOf(content) + ErrorItem(p)
  {
    assert (content + [p])[..|content|] == content;
    ResultsOne(p);
    var item := ErrorItem(p);
    hide ToolPartsOf, Results, IsGeneratedPart;
    if item == [] {
      assert ToolParts(content) + [] == ToolParts(content);
    } else {
      assert Wrap(item) == [ClientResult(item[0])];
      ResultsSnoc(ToolParts(content), ClientResult(item[0]));
    }
  }

  lemma {:induction false} ResultsPartPatched(p: Part, id: string, repaired: ToolCall)
    requires IsGeneratedPart(p)
    ensures var patched := PatchPart(p, id, repaired);
            && (patched != [] ==> IsGeneratedPart(patched[0]))
            && (if patched == [] then [] else ErrorItem(patched[0])) == PatchItems(ErrorItem(p), id, ErrorAfter(repaired))
  {
    if ErrorItem(p) != [] { assert ErrorItem(p)[..0] == []; }
  }

  lemma {:induction false} PatchItemsAdd(results: seq<ResultItem>, more: seq<ResultItem>, id: string, e: Option<TypedToolError>)
    requires |more| <= 1
    ensures PatchItems(results + more, id, e) == PatchItems(results, id, e) + PatchItems(more, id, e)
  {
    hide PatchItem;
    if more == [] {
      assert results + more == results;
    } else {
      assert (results + more)[..|results|] == results && more[..0] == [];
    }
  }

  /** The results of the patched content are the patched results. */
  lemma {:induction false} ResultsPatched(content: seq<Part>, id: string, repaired: ToolCall)
    requires GeneratedParts(content)
    ensures GeneratedParts(PatchContent(content, id, repaired))
    ensures ResultsOf(PatchContent(content, id, repaired)) == PatchItems(ResultsOf(content), id, ErrorAfter(repaired))
  {
    if content != [] {
      var rest, p := content[..|content| - 1], content[|content| - 1];
      assert content == rest + [p];
      ResultsPatched(rest, id, repaired);
      ResultsPatchedNext(rest, p, id, repaired);
    }
  }

  lemma {:induction false} ResultsPatchedNext(rest: seq<Part>, p: Part, id: string, repaired: ToolCall)
    requires IsGeneratedPart(p) && GeneratedParts(PatchContent(rest, id, repaired))
    requires ResultsOf(PatchContent(rest, id, repaired)) == PatchItems(ResultsOf(rest), id, ErrorAfter(repaired))
    ensures GeneratedParts(PatchContent(rest + [p], id, repaired))
    ensures ResultsOf(PatchContent(rest + [p], id, repaired)) == PatchItems(ResultsOf(rest + [p]), id, ErrorAfter(repaired))
  {
    hide *;
    var before, patched := PatchContent(rest, id, repaired), PatchPart(p, id, repaired);
    PatchSnoc(rest, p, id, repaired);
    ResultsPartPatched(p, id, repaired);
    ResultsOfSnoc(rest, p);
    AtMostOneItem(p);
    PatchItemsAdd(ResultsOf(rest), ErrorItem(p), id, ErrorAfter(repaired));
    if patched == [] {
      assert before + [] == before;
    } else {
      assert patched == [patched[0]];
      ResultsOfSnoc(before, patched[0]);
      GeneratedSnoc(before, patched[0]);
    }
  }

  lemma {:induction false} AtMostOneItem(p: Part)
    ensures |ErrorItem(p)| <= 1
  {
  }

  lemma {:induction false} GeneratedSnoc(content: seq<Part>, p: Part)
    requires GeneratedParts(content) && IsGeneratedPart(p)
    ensures GeneratedParts(content + [p])
  {
  }

  // ----- Patching and sorting commute

  lemma {:induction false} PatchedStayBefore(results: seq<ResultItem>, x: ResultItem, order: map<string, nat>, id: string, e: Option<TypedToolError>)
    requires e.Some? ==> e.value.id == id
    requires forall i :: 0 <= i < |results| ==> InOrder(results[i], x, order)
    ensures forall i :: 0 <= i < |PatchItems(results, id, e)| ==> InOrder(PatchItems(results, id, e)[i], x, order)
  {
    if results != [] { PatchedStayBefore(results[..|results| - 1], x, order, id, e); }
  }

  lemma {:induction false} InsertLast(sorted: seq<ResultItem>, x: ResultItem, order: map<string, nat>)
    requires forall i :: 0 <= i < |sorted| ==> InOrder(sorted[i], x, order)
    ensures InsertResult(sorted, x, order) == sorted + [x]
  {
  }

  lemma {:induction false} InsertBefore(rest: seq<ResultItem>, last: ResultItem, x: ResultItem, order: map<string, nat>)
    requires !InOrder(last, x, order)
    ensures InsertResult(rest + [last], x, order) == InsertResult(rest, x, order) + [last]
  {
    assert (rest + [last])[..|rest|] == rest;
  }

  ghost predicate InsertCommutes(sorted: seq<ResultItem>, x: ResultItem, order: map<string, nat>, id: string, e: Option<TypedToolError>) {
    var item, patched := PatchItem(x, id, e), PatchItems(sorted, id, e);
    PatchItems(InsertResult(sorted, x, order), id, e) == if item == [] then patched else InsertResult(patched, item[0], order)
  }

  lemma {:induction false} InsertPatched(sorted: seq<ResultItem>, x: ResultItem, order: map<string, nat>, id: string, e: Option<TypedToolError>)
    requires Sorted(sorted, order) && (e.Some? ==> e.value.id == id)
    ensures InsertCommutes(sorted, x, order, id, e)
  {
    hide InsertCommutes;
    if sorted == [] || InOrder(sorted[|sorted| - 1], x, order) {
      InsertLastPatched(sorted, x, order, id, e);
    } else {
      var rest, last := sorted[..|sorted| - 1], sorted[|sorted| - 1];
      InsertPatched(rest, x, order, id, e);
      InsertPatchedNext(rest, last, x, order, id, e);
      assert sorted == rest + [last];
    }
  }

  lemma {:induction false} InsertLastPatched(sorted: seq<ResultItem>, x: ResultItem, order: map<string, nat>, id: string, e: Option<TypedToolError>)
    requires e.Some? ==> e.value.id == id
    requires Sorted(sorted, order) && (sorted == [] || InOrder(sorted[|sorted| - 1], x, order))
    ensures InsertCommutes(sorted, x, order, id, e)
  {
    AllBefore(sorted, x, order);
    KeepsId(x, id, e);
    hide InsertResult, PatchItems, PatchItem, InOrder, Sorted;
    var item := PatchItem(x, id, e);
    InsertLast(sorted, x, order);
    PatchItemsSnoc(sorted, x, id, e);
    PatchedStayBefore(sorted, x, order, id, e);
    if item == [] {
      assert PatchItems(sorted, id, e) + item == PatchItems(sorted, id, e);
    } else {
      SameOrderOf(PatchItems(sorted, id, e), x, item[0], order);
      InsertLast(PatchItems(sorted, id, e), item[0], order);
      assert item == [item[0]];
    }
  }

  lemma {:induction false} AllBefore(sorted: seq<ResultItem>, x: ResultItem, order: map<string, nat>)
    requires Sorted(sorted, order) && (sorted == [] || InOrder(sorted[|sorted| - 1], x, order))
    ensures forall i :: 0 <= i < |sorted| ==> InOrder(sorted[i], x, order)
  {
    assert forall i :: 0 <= i < |sorted| - 1 ==> InOrder(sorted[i], sorted[|sorted| - 1], order);
  }

  lemma {:induction false} KeepsId(x: ResultItem, id: string, e: Option<TypedToolError>)
    requires e.Some? ==> e.value.id == id
    ensures var item := PatchItem(x, id, e); |item| <= 1 && (item != [] ==> item[0].callId == x.callId)
  {
  }

  lemma {:induction false} SameOrderOf(results: seq<ResultItem>, x: ResultItem, y: ResultItem, order: map<string, nat>)
    requires x.callId == y.callId && forall i :: 0 <= i < |results| ==> InOrder(results[i], x, order)
    ensures forall i :: 0 <= i < |results| ==> InOrder(results[i], y, order)
  {
  }

  lemma {:induction false} InsertPatchedNext(rest: seq<ResultItem>, last: ResultItem, x: ResultItem, order: map<string, nat>,
                                             id: string, e: Option<TypedToolError>)
    requires !InOrder(last, x, order) && (e.Some? ==> e.value.id == id)
    requires InsertCommutes(rest, x, order, id, e)
    ensures InsertCommutes(rest + [last], x, order, id, e)
  {
    InsertBefore(rest, last, x, order);
    PatchItemsSnoc(InsertResult(rest, x, order), last, id, e);
    PatchItemsSnoc(rest, last, id, e);
    var item, l, before := PatchItem(x, id, e), PatchItem(last, id, e), PatchItems(rest, id, e);
    assert item == [] || item[0].callId == x.callId;
    assert l == [] || (l == [l[0]] && l[0].callId == last.callId);
    hide PatchItems, InsertResult, PatchItem;
    if l == [] {
      assert before + [] == before;
    } else if item != [] {
      InsertBefore(before, l[0], item[0], order);
    }
  }

  /** Patching sorted results is sorting patched results. */
  lemma {:induction false} SortPatched(results: seq<ResultItem>, order: map<string, nat>, id: string, e: Option<TypedToolError>)
    requires e.Some? ==> e.value.id == id
    ensures PatchItems(SortResults(results, order), id, e) == SortResults(PatchItems(results, id, e), order)
  {
    if results != [] {
      var rest, x := results[..|results| - 1], results[|results| - 1];
      SortPatched(rest, order, id, e);
      SortIsStable(rest, order);
      InsertPatched(SortResults(rest, order), x, order, id, e);
      var item, before := PatchItem(x, id, e), PatchItems(rest, id, e);
      assert item == [] || item == [item[0]];
      if item != [] { assert (before + item)[..|before|] == before; } else { assert before + [] == before; }
    }
  }

  predicate SameKey(r: ResultItem, order: map<string, nat>, order': map<string, nat>) { KeyOf(r, order) == KeyOf(r, order') }

  lemma {:induction false} InsertSame(sorted: seq<ResultItem>, x: ResultItem, order: map<string, nat>, order': map<string, nat>)
    requires SameKey(x, order, order') && forall i :: 0 <= i < |sorted| ==> SameKey(sorted[i], order, order')
    ensures InsertResult(sorted, x, order) == InsertResult(sorted, x, order')
  {
    if sorted != [] { InsertSame(sorted[..|sorted| - 1], x, order, order'); }
  }

  lemma {:induction false} SortSame(results: seq<ResultItem>, order: map<string, nat>, order': map<string, nat>)
    requires forall i :: 0 <= i < |results| ==> SameKey(results[i], order, order')
    ensures SortResults(results, order) == SortResults(results, order')
  {
    if results != [] {
      var rest, x := results[..|results| - 1], results[|results| - 1];
      SortSame(rest, order, order');
      SortIsStable(rest, order);
      var sorted := SortResults(rest, order);
      forall i | 0 <= i < |sorted| ensures SameKey(sorted[i], order, order') {
        assert sorted[i] in multiset(sorted);
        assert sorted[i] in multiset(rest);
      }
      InsertSame(sorted, x, order, order');
    }
  }

  // ----- Results are of calls

  lemma {:induction false} ErrorSnoc(content: seq<Part>, p: Part, k: string)
    ensures HasErrorOf(content + [p], k) <==> HasErrorOf(content, k) || IsErrorOf(p, k)
  {
    var all := content + [p];
    if HasErrorOf(content, k) {
      var i :| 0 <= i < |content| && IsErrorOf(content[i], k);
      assert all[i] == content[i];
    }
    assert all[|content|] == p;
  }

  lemma {:induction false} ResultsHaveErrors(content: seq<Part>)
    requires GeneratedParts(content)
    ensures forall i :: 0 <= i < |ResultsOf(content)| ==> HasErrorOf(content, ResultsOf(content)[i].callId)
  {
    if content != [] {
      var rest, p := content[..|content| - 1], content[|content| - 1];
      assert content == rest + [p];
      ResultsHaveErrors(rest);
      ResultsOfSnoc(rest, p);
      hide ResultsOf, HasErrorOf;
      forall i | 0 <= i < |ResultsOf(content)| ensures HasErrorOf(content, ResultsOf(content)[i].callId) {
        ErrorSnoc(rest, p, ResultsOf(content)[i].callId);
      }
    }
  }

  predicate Answers(results: seq<ResultItem>, k: string) { exists j :: 0 <= j < |results| && results[j].callId == k }

  lemma {:induction false} PatchedIds(results: seq<ResultItem>, id: string, e: Option<TypedToolError>, k: string)
    requires (e.Some? ==> e.value.id == id) && Answers(PatchItems(results, id, e), k)
    ensures Answers(results, k) && (e.None? ==> k != id)
  {
    var rest, r := results[..|results| - 1], results[|results| - 1];
    if Answers(PatchItems(rest, id, e), k) {
      PatchedIds(rest, id, e, k);
      var j :| 0 <= j < |rest| && rest[j].callId == k;
      assert results[j].callId == k;
    } else {
      var items := PatchItems(results, id, e);
      var j :| 0 <= j < |items| && items[j].callId == k;
      assert r.callId == k;
    }
  }

  lemma {:induction false} NothingToPatch(results: seq<ResultItem>, id: string, e: Option<TypedToolError>)
    requires forall i :: 0 <= i < |results| ==> results[i].callId != id
    ensures PatchItems(results, id, e) == results
  {
    if results != [] { NothingToPatch(results[..|results| - 1], id, e); }
  }

  /** The tool message of the patched content is the patched tool message. */
  lemma {:induction false} ToolMessagePatched(content: seq<Part>, id: string, repaired: ToolCall)
    requires Generated(content) && FreshId(content, id, repaired)
    ensures var answers := ToolMessageContent(content, CallOrder(content));
            var patched := PatchContent(content, id, repaired);
            var message := ToolMessageContent(patched, CallOrder(patched));
            message == if HasErrorOf(content, id) then PatchAnswers(answers, id, ErrorAfter(repaired)) else answers
  {
    var e, patched := ErrorAfter(repaired), PatchContent(content, id, repaired);
    var results, order, order' := ResultsOf(content), CallOrder(content), CallOrder(patched);
    assert e.Some? ==> e.value.id == id;
    ResultsPatched(content, id, repaired);
    ToolMessageIsWrap(content, order);
    ToolMessageIsWrap(patched, order');
    SortPatched(results, order, id, e);
    WrapPatched(SortResults(results, order), id, e);
    SortSame(PatchItems(results, id, e), order, order') by { KeysPatched(content, id, repaired); }
    if !HasErrorOf(content, id) { NothingToPatch(results, id, e) by { ResultsHaveErrors(content); } }
  }

  lemma {:induction false} KeysPatched(content: seq<Part>, id: string, repaired: ToolCall)
    requires Generated(content) && FreshId(content, id, repaired)
    ensures var items := PatchItems(ResultsOf(content), id, ErrorAfter(repaired));
            var order' := CallOrder(PatchContent(content, id, repaired));
            forall i :: 0 <= i < |items| ==> SameKey(items[i], CallOrder(content), order')
  {
    var results, e := ResultsOf(content), ErrorAfter(repaired);
    var items := PatchItems(results, id, e);
    assert e.Some? ==> e.value.id == id;
    OrderPatched(content, id, repaired);
    ResultsHaveErrors(content);
    hide PatchItems, ResultsOf, CallOrder, PatchContent, HasErrorOf, GeneratedParts, ErrorAfter;
    var order, order' := CallOrder(content), CallOrder(PatchContent(content, id, repaired));
    forall i | 0 <= i < |items| ensures SameKey(items[i], order, order') {
      var k := items[i].callId;
      assert Answers(items, k);
      PatchedIds(results, id, e, k);
      var j :| 0 <= j < |results| && results[j].callId == k;
      assert HasErrorOf(content, results[j].callId);
      assert IsCall(content, k);
    }
  }

  // ----- The step

  /** For a generated step, patching its messages is rebuilding them from the
      patched content, exactly when the repaired call keeps flag and metadata. */
  lemma {:induction false} PatchIsRebuild(content: seq<Part>, id: string, repaired: ToolCall)
    requires Generated(content) && FreshId(content, id, repaired)
    ensures PatchMessages(Messages(content), id, repaired, HasErrorOf(content, id)) == Messages(PatchContent(content, id, repaired))
       <==> KeepsFlags(content, id, repaired)
  {
    AssistantPatched(content, id, repaired);
    ToolMessagePatched(content, id, repaired);
    var patched := PatchContent(content, id, repaired);
    TwoMessages(AssistantParts(content), ToolMessageContent(content, CallOrder(content)), id, repaired, HasErrorOf(content, id));
    hide AssistantParts, ToolMessageContent, CallOrder, PatchContent, PatchMessages, KeepsFlags, HasErrorOf, PatchAnswers, PatchParts;
    var a, b := AssistantParts(patched), PatchParts(AssistantParts(content), id, repaired);
    SameMessages(a, b, ToolMessageContent(patched, CallOrder(patched)));
  }

  function Both(parts: seq<AssistantPart>, answers: seq<ToolPart>): seq<Message> {
    (if parts == [] then [] else [Assistant(parts)]) + if answers == [] then [] else [Tool(answers)]
  }

  lemma {:induction false} SameMessages(a: seq<AssistantPart>, b: seq<AssistantPart>, answers: seq<ToolPart>)
    requires |a| == |b|
    ensures Both(a, answers) == Both(b, answers) <==> a == b
  {
    if a != [] { assert Both(a, answers)[0] == Assistant(a) && Both(b, answers)[0] == Assistant(b); }
  }

  lemma {:induction false} PatchMessagesSnoc(messages: seq<Message>, m: Message, id: string, repaired: ToolCall, had: bool)
    ensures var patched := PatchMessage(m, id, repaired, had);
            PatchMessages(messages + [m], id, repaired, had)
            == PatchMessages(messages, id, repaired, had) + if patched == Tool([]) then [] else [patched]
  {
    assert (messages + [m])[..|messages|] == messages;
  }

  lemma {:induction false} TwoMessages(parts: seq<AssistantPart>, answers: seq<ToolPart>, id: string, repaired: ToolCall, had: bool)
    ensures PatchMessages(Both(parts, answers), id, repaired, had)
         == Both(PatchParts(parts, id, repaired), if had then PatchAnswers(answers, id, ErrorAfter(repaired)) else answers)
  {
    var first := OneMessage(parts);
    FirstPatched(parts, id, repaired, had);
    assert answers == [] ==> PatchAnswers(answers, id, ErrorAfter(repaired)) == [];
    hide PatchParts, PatchAnswers, PatchMessages, ErrorAfter, OneMessage;
    if answers == [] {
      assert first + [] == first;
      BothIs(parts, answers);
      BothIs(PatchParts(parts, id, repaired), answers);
    } else {
      PatchMessagesSnoc(first, Tool(answers), id, repaired, had);
      BothIs(parts, answers);
      BothIs(PatchParts(parts, id, repaired), if had then PatchAnswers(answers, id, ErrorAfter(repaired)) else answers);
    }
    hide Both;
  }

  function OneMessage(parts: seq<AssistantPart>): seq<Message> { if parts == [] then [] else [Assistant(parts)] }

  lemma {:induction false} BothIs(parts: seq<AssistantPart>, answers: seq<ToolPart>)
    ensures Both(parts, answers) == OneMessage(parts) + if answers == [] then [] else [Tool(answers)]
  {
  }

  lemma {:induction false} FirstPatched(parts: seq<AssistantPart>, id: string, repaired: ToolCall, had: bool)
    ensures PatchMessages(OneMessage(parts), id, repaired, had) == OneMessage(PatchParts(parts, id, repaired))
  {
    PatchMessagesSnoc([], Assistant(parts), id, repaired, had);
    assert [] + [Assistant(parts)] == [Assistant(parts)];
  }

  lemma {:induction false} CallPatched(content: seq<Part>, id: string, repaired: ToolCall, k: string)
    ensures IsCall(PatchContent(content, id, repaired), k) <==>
            (k != id && IsCall(content, k)) || (k == repaired.id && IsCall(content, id))
  {
    if content != [] {
      var rest, p := content[..|content| - 1], content[|content| - 1];
      var before, patched := PatchContent(rest, id, repaired), PatchPart(p, id, repaired);
      assert content == rest + [p];
      CallPatched(rest, id, repaired, k);
      CallIsSnoc(rest, p, k);
      CallIsSnoc(rest, p, id);
      if patched == [] {
        assert before + [] == before;
      } else {
        assert patched == [patched[0]];
        CallIsSnoc(before, patched[0], k);
      }
      hide IsCall;
    }
  }

  lemma {:induction false} ErrorPatched(content: seq<Part>, id: string, repaired: ToolCall, k: string)
    requires HasErrorOf(PatchContent(content, id, repaired), k)
    ensures (k != id && HasErrorOf(content, k)) || (ErrorAfter(repaired).Some? && k == repaired.id && HasErrorOf(content, id))
  {
    var rest, p := content[..|content| - 1], content[|content| - 1];
    var before, patched := PatchContent(rest, id, repaired), PatchPart(p, id, repaired);
    assert content == rest + [p];
    ErrorSnoc(rest, p, k);
    ErrorSnoc(rest, p, id);
    if patched == [] { assert before + [] == before; } else { assert patched == [patched[0]]; ErrorSnoc(before, patched[0], k); }
    hide HasErrorOf;
    if HasErrorOf(before, k) { ErrorPatched(rest, id, repaired, k); }
  }

  /** A patched step is again as text generation builds them. */
  lemma {:induction false} PatchedIsGenerated(content: seq<Part>, id: string, repaired: ToolCall)
    requires Generated(content) && FreshId(content, id, repaired)
    ensures Generated(PatchContent(content, id, repaired))
  {
    ResultsPatched(content, id, repaired);
    var patched := PatchContent(content, id, repaired);
    hide PatchContent, IsCall, HasErrorOf, GeneratedParts, ResultsOf, PatchItems;
    forall k | HasErrorOf(patched, k) ensures IsCall(patched, k) {
      ErrorPatched(content, id, repaired, k);
      CallPatched(content, id, repaired, k);
    }
  }

  // ----- The result

  function Calls(content: seq<Part>): seq<ToolCall> {
    if content == [] then []
    else
      var last := content[|content| - 1];
      Calls(content[..|content| - 1]) + if last.CallContent? then [last.call] else []
  }

  function AllCalls(steps: seq<StepRecord>): seq<ToolCall> {
    if steps == [] then [] else AllCalls(steps[..|steps| - 1]) + Calls(steps[|steps| - 1].content)
  }

  function WithId(calls: seq<ToolCall>, id: string): seq<ToolCall> {
    if calls == [] then []
    else
      var last := calls[|calls| - 1];
      WithId(calls[..|calls| - 1], id) + if last.id == id then [last] else []
  }

  function PatchSteps(steps: seq<StepRecord>, id: string, repaired: ToolCall): (patched: seq<StepRecord>)
    ensures |patched| == |steps|
    ensures forall k :: 0 <= k < |steps| ==> patched[k] == PatchStep(steps[k], id, repaired)
  {
    seq(|steps|, k requires 0 <= k < |steps| => PatchStep(steps[k], id, repaired))
  }

  function RepairResult(codec: Codec, steps: seq<StepRecord>, tools: Option<seq<ToolDef>>, id: string, reply: Reply)
    : Result<seq<StepRecord>, AiError>
  {
    var calls := AllCalls(steps);
    var matching := WithId(calls, id);
    if matching == [] then Err(InvalidArgument("result: no tool call '" + id + "'"))
    else if |matching| > 1 then Err(InvalidArgument("result: tool call id '" + id + "' is not unique"))
    else
      match ApplyRepair(codec, matching[0], tools, reply)
      case Err(e) => Err(e)
      case Ok(repaired) =>
        if repaired.id != id && WithId(calls, repaired.id) != []
        then Err(InvalidArgument("result: repaired tool call id '" + repaired.id + "' already exists"))
        else Ok(PatchSteps(steps, id, repaired))
  }

  lemma {:induction false} FoundById(calls: seq<ToolCall>, id: string, c: ToolCall)
    ensures c in WithId(calls, id) <==> c in calls && c.id == id
  {
    if calls != [] {
      FoundById(calls[..|calls| - 1], id, c);
      assert calls == calls[..|calls| - 1] + [calls[|calls| - 1]];
    }
  }

  predicate HasCall(content: seq<Part>, c: ToolCall) { CallContent(c) in content }

  lemma {:induction false} CallsAre(content: seq<Part>, c: ToolCall)
    ensures c in Calls(content) <==> HasCall(content, c)
  {
    if content != [] {
      CallsAre(content[..|content| - 1], c);
      assert content == content[..|content| - 1] + [content[|content| - 1]];
    }
  }

  predicate SomeStepHas(steps: seq<StepRecord>, c: ToolCall) { exists k :: 0 <= k < |steps| && HasCall(steps[k].content, c) }

  lemma {:induction false} AllCallsAre(steps: seq<StepRecord>, c: ToolCall)
    ensures c in AllCalls(steps) <==> SomeStepHas(steps, c)
  {
    if steps != [] {
      var rest, last := steps[..|steps| - 1], steps[|steps| - 1];
      AllCallsAre(rest, c);
      CallsAre(last.content, c);
      if SomeStepHas(rest, c) {
        var k :| 0 <= k < |rest| && HasCall(rest[k].content, c);
        assert HasCall(steps[k].content, c);
      }
      if HasCall(last.content, c) { assert HasCall(steps[|steps| - 1].content, c); }
      if SomeStepHas(steps, c) {
        var k :| 0 <= k < |steps| && HasCall(steps[k].content, c);
        if k < |rest| { assert HasCall(rest[k].content, c); }
      }
    }
  }

  ghost predicate AllGenerated(steps: seq<StepRecord>) { forall k :: 0 <= k < |steps| ==> Generated(steps[k].content) }

  /** Each step's messages are those its content is replayed as. */
  ghost predicate Agrees(steps: seq<StepRecord>) {
    forall k :: 0 <= k < |steps| ==> steps[k].messages == Messages(steps[k].content)
  }

  /** A still invalid call keeps its id. */
  lemma {:induction false} RepairKeepsId(codec: Codec, call: ToolCall, tools: Option<seq<ToolDef>>, reply: Reply)
    requires ApplyRepair(codec, call, tools, reply).Ok?
    ensures var repaired := ApplyRepair(codec, call, tools, reply).value;
            !IsValid(repaired) ==> repaired.id == call.id && repaired.providerExecuted == call.providerExecuted
                                   && repaired.metadata == call.metadata
    ensures ErrorAfter(ApplyRepair(codec, call, tools, reply).value).Some? ==> !IsValid(ApplyRepair(codec, call, tools, reply).value)
  {
    var raw := RawFromInvalid(codec, call).value;
    RepairedIsValid(codec, raw.0, raw.1, tools.value, ReplyOutcome(reply));
  }

  lemma {:induction false} StepsAreFresh(steps: seq<StepRecord>, id: string, repaired: ToolCall, k: nat)
    requires k < |steps| && (repaired.id == id || WithId(AllCalls(steps), repaired.id) == [])
    requires ErrorAfter(repaired).Some? ==> repaired.id == id
    ensures FreshId(steps[k].content, id, repaired)
  {
    var content := steps[k].content;
    if repaired.id != id && IsCall(content, repaired.id) {
      var i :| 0 <= i < |content| && content[i].CallContent? && content[i].call.id == repaired.id;
      var c := content[i].call;
      assert HasCall(content, c);
      AllCallsAre(steps, c);
      FoundById(AllCalls(steps), repaired.id, c);
    }
  }

  /** One call has the id, so flags are kept in all steps when that call's are. */
  lemma {:induction false} FlagsOfTheCall(steps: seq<StepRecord>, id: string, repaired: ToolCall)
    requires |WithId(AllCalls(steps), id)| == 1
    ensures var call := WithId(AllCalls(steps), id)[0];
            (forall k :: 0 <= k < |steps| ==> KeepsFlags(steps[k].content, id, repaired)) <==>
            call.providerExecuted == repaired.providerExecuted && call.metadata == repaired.metadata
  {
    var found := WithId(AllCalls(steps), id);
    var call := found[0];
    assert call in found && found == [call];
    FoundById(AllCalls(steps), id, call);
    AllCallsAre(steps, call);
    if forall k :: 0 <= k < |steps| ==> KeepsFlags(steps[k].content, id, repaired) {
      var k :| 0 <= k < |steps| && HasCall(steps[k].content, call);
      var i :| 0 <= i < |steps[k].content| && steps[k].content[i] == CallContent(call);
      assert KeepsFlag(steps[k].content[i], id, repaired);
    }
    if call.providerExecuted == repaired.providerExecuted && call.metadata == repaired.metadata {
      forall k, i | 0 <= k < |steps| && 0 <= i < |steps[k].content| ensures KeepsFlag(steps[k].content[i], id, repaired) {
        var p := steps[k].content[i];
        if p.CallContent? && p.call.id == id {
          assert HasCall(steps[k].content, p.call);
          AllCallsAre(steps, p.call);
          FoundById(AllCalls(steps), id, p.call);
        }
      }
    }
  }

  /** Repairing a call of a result as text generation builds it: the steps stay
      of that kind, and every step's messages are those of its content exactly
      when the repaired call has the provider flag and metadata of the call it
      replaces; so always when the call is still invalid. */
  lemma {:induction false} RepairedResultAgrees(codec: Codec, steps: seq<StepRecord>, tools: Option<seq<ToolDef>>, id: string, reply: Reply)
    requires AllGenerated(steps) && Agrees(steps)
    requires RepairResult(codec, steps, tools, id, reply).Ok?
    ensures var patched := RepairResult(codec, steps, tools, id, reply).value;
            var call := WithId(AllCalls(steps), id)[0];
            var repaired := ApplyRepair(codec, call, tools, reply).value;
            && AllGenerated(patched)
            && (Agrees(patched) <==> repaired.providerExecuted == call.providerExecuted && repaired.metadata == call.metadata)
            && (!IsValid(repaired) ==> Agrees(patched))
  {
    var patched := RepairResult(codec, steps, tools, id, reply).value;
    var call := WithId(AllCalls(steps), id)[0];
    var repaired := ApplyRepair(codec, call, tools, reply).value;
    FoundById(AllCalls(steps), id, call);
    RepairKeepsId(codec, call, tools, reply);
    FlagsOfTheCall(steps, id, repaired);
    hide WithId, AllCalls, ApplyRepair, Generated, Messages, PatchContent, PatchMessages, KeepsFlags, HasErrorOf, FreshId;
    assert ErrorAfter(repaired).Some? ==> repaired.id == id;
    forall k | 0 <= k < |steps|
      ensures Generated(patched[k].content)
      ensures patched[k].messages == Messages(patched[k].content) <==> KeepsFlags(steps[k].content, id, repaired)
    {
      StepsAreFresh(steps, id, repaired, k);
      PatchIsRebuild(steps[k].content, id, repaired);
      PatchedIsGenerated(steps[k].content, id, repaired);
    }
  }

  // ----- A flag that is not kept

  /** A call of an unknown tool. */
  function ClientCall(codec: Codec): ToolCall {
    InvalidCall(codec, RawToolCall("c", "tool", "", None, None, None), NoSuchTool("tool", Some(""), Some([])))
  }

  function ClientContent(codec: Codec): seq<Part> {
    [CallContent(ClientCall(codec)), ErrorContent(InvalidCallError(ClientCall(codec)).value)]
  }

  function ClientSteps(codec: Codec): seq<StepRecord> {
    [StepRecord(ClientContent(codec), Messages(ClientContent(codec)), Stop, [])]
  }

  /** The same call, executed by the provider. */
  const PROVIDER_REPLY: Reply := ReplyRepaired(RawToolCall("c", "tool", "", Some(true), Some(true), None))

  /** The reply makes the call a provider call in the content only. */
  lemma {:induction false} FlagIsNotPatched(codec: Codec)
    ensures AllGenerated(ClientSteps(codec)) && Agrees(ClientSteps(codec))
    ensures var patched := RepairResult(codec, ClientSteps(codec), Some([]), "c", PROVIDER_REPLY);
            patched.Ok? && !Agrees(patched.value)
  {
    var call, steps := ClientCall(codec), ClientSteps(codec);
    ClientStepsAre(codec);
    ProviderReplyIsValid(codec);
    hide *;
    RepairedResultAgrees(codec, steps, Some([]), "c", PROVIDER_REPLY);
  }

  lemma {:induction false} ProviderReplyIsValid(codec: Codec)
    ensures var repaired := ApplyRepair(codec, ClientCall(codec), Some([]), PROVIDER_REPLY);
            repaired.Ok? && repaired.value.id == "c" && repaired.value.providerExecuted == Some(true)
    ensures ClientCall(codec).providerExecuted == None && ClientCall(codec).id == "c"
  {
  }

  lemma {:induction false} ClientStepsAre(codec: Codec)
    ensures AllGenerated(ClientSteps(codec)) && Agrees(ClientSteps(codec))
    ensures WithId(AllCalls(ClientSteps(codec)), "c") == [ClientCall(codec)]
    ensures RepairResult(codec, ClientSteps(codec), Some([]), "c", PROVIDER_REPLY).Ok?
  {
    ClientContentIsGenerated(codec);
    ClientCallsAre(codec);
    ProviderReplyIsValid(codec);
    hide Messages, ClientContent, ClientCall, ApplyRepair, AllCalls, WithId, Generated;
  }

  lemma {:induction false} ClientCallsAre(codec: Codec)
    ensures WithId(AllCalls(ClientSteps(codec)), "c") == [ClientCall(codec)]
  {
    hide Messages, BackFill;
    var content, call := ClientContent(codec), ClientCall(codec);
    assert content[..1] == [CallContent(call)] && content[..1][..0] == [];
    assert Calls(content[..1]) == [call] && Calls(content) == [call] + [];
    assert ClientSteps(codec)[..0] == [] && AllCalls(ClientSteps(codec)) == [] + [call];
    assert [call][..0] == [] && WithId([call], "c") == [] + [call];
  }

  lemma {:induction false} ClientContentIsGenerated(codec: Codec)
    ensures Generated(ClientContent(codec))
  {
    hide BackFill;
    var content := ClientContent(codec);
    assert content[0].CallContent? && content[0].call.id == "c";
    assert IsCall(content, "c");
    forall k | HasErrorOf(content, k) ensures IsCall(content, k) {
      var i :| 0 <= i < |content| && IsErrorOf(content[i], k);
      assert i == 1 && k == "c";
    }
  }

  // ----- The code

  method RetainContent(content: seq<Part>, id: string, repaired: ToolCall) returns (kept: seq<Part>, hadError: bool)
    ensures kept == PatchContent(content, id, repaired) && hadError == HasErrorOf(content, id)
  {
    var toolError := ErrorAfter(repaired);
    kept, hadError := [], false;
    for n := 0 to |content|
      invariant kept == PatchContent(content[..n], id, repaired)
      invariant hadError == HasErrorOf(content[..n], id)
    {
      var part := content[n];
      assert content[..n + 1] == content[..n] + [part];
      PatchSnoc(content[..n], part, id, repaired);
      ErrorSnoc(content[..n], part, id);
      match part {
      case CallContent(call) => kept := kept + [if call.id == id then CallContent(repaired) else part];
      case ApprovalContent(approval) =>
        kept := kept + [if approval.call.id == id then ApprovalContent(approval.(call := repaired)) else part];
      case ErrorContent(error) =>
        if error.id == id && !IsTrue(error.providerExecuted) {
          hadError := true;
          if toolError.Some? { kept := kept + [ErrorContent(toolError.value)]; }
        } else {
          kept := kept + [part];
        }
      case _ => kept := kept + [part];
      }
    }
    assert content[..|content|] == content;
  }

  method RewriteParts(parts: seq<AssistantPart>, id: string, repaired: ToolCall) returns (patched: seq<AssistantPart>)
    ensures patched == PatchParts(parts, id, repaired)
  {
    hide PatchParts;
    patched := parts;
    var replay := ResponseInput(repaired.input, repaired.invalid);
    for n := 0 to |parts|
      invariant |patched| == |parts|
      invariant forall i :: 0 <= i < n ==> patched[i] == PatchAssistantPart(parts[i], id, repaired)
      invariant forall i :: n <= i < |parts| ==> patched[i] == parts[i]
    {
      var part := parts[n];
      match part {
      case CallPart(callId, _, _, providerExecuted, options) =>
        if callId == id { part := CallPart(repaired.id, repaired.name, replay, providerExecuted, options); }
      case ApprovalRequestPart(approvalId, callId, reason, isAutomatic, signature, input) =>
        if callId == id { part := ApprovalRequestPart(approvalId, repaired.id, reason, isAutomatic, signature, input); }
      case _ =>
      }
      assert part == PatchAssistantPart(parts[n], id, repaired);
      patched := patched[n := part];
    }
    PatchPartsAre(parts, id, repaired);
  }

  lemma {:induction false} PatchPartsAre(parts: seq<AssistantPart>, id: string, repaired: ToolCall)
    ensures forall i :: 0 <= i < |parts| ==> PatchParts(parts, id, repaired)[i] == PatchAssistantPart(parts[i], id, repaired)
  {
    hide PatchAssistantPart;
    if parts != [] { PatchPartsAre(parts[..|parts| - 1], id, repaired); }
  }

  method RetainAnswers(answers: seq<ToolPart>, id: string, toolError: Option<TypedToolError>) returns (kept: seq<ToolPart>)
    ensures kept == PatchAnswers(answers, id, toolError)
  {
    kept := [];
    for n := 0 to |answers|
      invariant kept == PatchAnswers(answers[..n], id, toolError)
    {
      var part := answers[n];
      if part.ClientResult? && part.result.callId == id {
        if toolError.Some? { kept := kept + [ClientResult(PatchResult(part.result, toolError.value))]; }
      } else {
        kept := kept + [part];
      }
      assert answers[..n + 1][..n] == answers[..n];
    }
    assert answers[..|answers|] == answers;
  }

  method PatchOneStep(step: StepRecord, id: string, repaired: ToolCall) returns (patched: StepRecord)
    ensures patched == PatchStep(step, id, repaired)
  {
    var content, hadError := RetainContent(step.content, id, repaired);
    hide PatchContent, HasErrorOf, PatchParts, PatchAnswers, ErrorAfter;
    var messages: seq<Message> := [];
    for n := 0 to |step.messages|
      invariant messages == PatchMessages(step.messages[..n], id, repaired, hadError)
    {
      var message := PatchOneMessage(step.messages[n], id, repaired, hadError);
      PatchMessagesSnoc(step.messages[..n], step.messages[n], id, repaired, hadError);
      if message != Tool([]) { messages := messages + [message]; }
      assert step.messages[..n + 1] == step.messages[..n] + [step.messages[n]];
    }
    assert step.messages[..|step.messages|] == step.messages;
    patched := step.(content := content, messages := messages);
  }

  method PatchOneMessage(m: Message, id: string, repaired: ToolCall, hadError: bool) returns (patched: Message)
    ensures patched == PatchMessage(m, id, repaired, hadError)
  {
    patched := m;
    match m
    case Assistant(parts) =>
      var rewritten := RewriteParts(parts, id, repaired);
      patched := Assistant(rewritten);
    case Tool(answers) =>
      if hadError {
        var kept := RetainAnswers(answers, id, ErrorAfter(repaired));
        patched := Tool(kept);
      }
  }

  method ApplyToResult(codec: Codec, steps: seq<StepRecord>, tools: Option<seq<ToolDef>>, id: string, reply: Reply)
    returns (result: Result<seq<StepRecord>, AiError>)
    ensures result == RepairResult(codec, steps, tools, id, reply)
  {
    hide AllCalls, WithId, ApplyRepair, PatchStep;
    var calls := AllCalls(steps);
    var matching := WithId(calls, id);
    if matching == [] { return Err(InvalidArgument("result: no tool call '" + id + "'")); }
    if |matching| > 1 { return Err(InvalidArgument("result: tool call id '" + id + "' is not unique")); }
    var applied := ApplyRepair(codec, matching[0], tools, reply);
    if applied.Err? { return Err(applied.error); }
    var repaired := applied.value;
    if repaired.id != id && WithId(calls, repaired.id) != [] {
      return Err(InvalidArgument("result: repaired tool call id '" + repaired.id + "' already exists"));
    }
    var patched: seq<StepRecord> := [];
    for k := 0 to |steps|
      invariant |patched| == k && forall i :: 0 <= i < k ==> patched[i] == PatchStep(steps[i], id, repaired)
    {
      var step := PatchOneStep(steps[k], id, repaired);
      patched := patched + [step];
    }
    assert patched == PatchSteps(steps, id, repaired);
    result := Ok(patched);
  }
}
