/**
 The content of a generated step, assembled in order with streamed blocks
 updated by id, and the response messages built from it: one assistant message
 and one tool message whose results follow the order of the calls.
 */
module ResponseMessages {
  import opened Wrappers
  import opened Content

  // ----- Messages

  /** The output of a tool: `ErrorText` stands for the text of an error value
      (a string itself, `unknown error` for null, other values rendered). */
  datatype Output =
    | TextOutput(value: string)
    | JsonOutput(json: Json)
    | ErrorText(of: Json)
    | ErrorJson(json: Json)
    | ExecutionDenied(reason: Option<string>)

  datatype ResultItem = ResultItem(callId: string, name: Option<string>, output: Output, options: Metadata)

  datatype AssistantPart =
    | TextPart(text: string, options: Metadata)
    | ReasoningPart(text: string, options: Metadata)
    | CustomItem(kind: string, options: Metadata)
    | FileItem(data: string, mediaType: string, options: Metadata)
    | ReasoningFileItem(data: string, mediaType: string, options: Metadata)
    | ApprovalRequestPart(approvalId: string, callId: string, reason: Option<string>, isAutomatic: Option<bool>,
                          signature: Option<string>, inputSchemaInput: Option<Json>)
    | CallPart(callId: string, name: string, input: Json, providerExecuted: Option<bool>, options: Metadata)
    | ProviderResult(result: ResultItem)

  datatype ToolPart =
    | ClientResult(result: ResultItem)
    | ApprovalAnswer(approvalId: string, approved: bool, reason: Option<string>, providerExecuted: Option<bool>)

  datatype Message = Assistant(parts: seq<AssistantPart>) | Tool(answers: seq<ToolPart>)

  function ResponseInput(input: Json, invalid: Option<bool>): Json {
    if IsTrue(invalid) && !input.Obj? && !input.Arr? && !input.Null? then Obj(map[]) else input
  }

  function OutputOf(value: Json, isError: bool): Output {
    if isError then ErrorText(value) else if value.Str? then TextOutput(value.text) else JsonOutput(value)
  }

  // ----- Assembling content

  /** Content so far, and where the open text and reasoning blocks are in it. */
  datatype Builder = Builder(content: seq<Part>, text: map<string, nat>, reasoning: map<string, nat>)

  const EMPTY_BUILDER: Builder := Builder([], map[], map[])

  ghost predicate Indexed(b: Builder) {
    && (forall id :: id in b.text ==> b.text[id] < |b.content| && b.content[b.text[id]].Text?)
    && (forall id :: id in b.reasoning ==> b.reasoning[id] < |b.content| && b.content[b.reasoning[id]].Reasoning?)
  }

  function Push(b: Builder, part: Part): Builder { b.(content := b.content + [part]) }

  function StartText(b: Builder, id: string, metadata: Metadata): Builder {
    Push(b, Text("", metadata)).(text := b.text[id := |b.content|])
  }

  function AddText(b: Builder, id: string, delta: string, metadata: Metadata): Builder {
    if id !in b.text || b.text[id] >= |b.content| || !b.content[b.text[id]].Text? then b
    else
      var i := b.text[id];
      var part := b.content[i];
      b.(content := b.content[i := Text(part.text + delta, if metadata.Some? then metadata else part.metadata)])
  }

  function EndText(b: Builder, id: string, metadata: Metadata): Builder {
    var b' := AddText(b, id, "", metadata);
    b'.(text := b'.text - {id})
  }

  function StartReasoning(b: Builder, id: string, metadata: Metadata): Builder {
    Push(b, Reasoning("", metadata)).(reasoning := b.reasoning[id := |b.content|])
  }

  function AddReasoning(b: Builder, id: string, delta: string, metadata: Metadata): Builder {
    if id !in b.reasoning || b.reasoning[id] >= |b.content| || !b.content[b.reasoning[id]].Reasoning? then b
    else
      var i := b.reasoning[id];
      var part := b.content[i];
      b.(content := b.content[i := Reasoning(part.text + delta, if metadata.Some? then metadata else part.metadata)])
  }

  function EndReasoning(b: Builder, id: string, metadata: Metadata): Builder {
    var b' := AddReasoning(b, id, "", metadata);
    b'.(reasoning := b'.reasoning - {id})
  }

  /** A provider result becomes a result or an error with its call's input. */
  function ProviderResultContent(content: seq<Part>, r: ToolResult): Part {
    var call := FindCall(content, r.id);
    var input := if call.Some? then Some(call.value.input) else None;
    var dynamic := if call.Some? then call.value.dynamic else r.dynamic;
    if IsTrue(r.isError)
    then ErrorContent(TypedToolError(r.id, r.name, input, r.result, Some(true), r.metadata, dynamic))
    else ResultContent(TypedToolResult(r.id, r.name, input, r.result, Some(true), r.metadata, dynamic, None))
  }

  function FindCall(content: seq<Part>, id: string): Option<ToolCall> {
    if content == [] then None
    else if content[0].CallContent? && content[0].call.id == id then Some(content[0].call)
    else FindCall(content[1..], id)
  }

  function AddProviderResult(b: Builder, r: ToolResult): Builder {
    if IsTrue(r.preliminary) then b else Push(b, ProviderResultContent(b.content, r))
  }

  function AddTypedResult(b: Builder, r: TypedToolResult): Builder {
    if IsTrue(r.preliminary) then b else Push(b, ResultContent(r))
  }

  // ----- The assistant message

  function AssistantPartOf(p: Part): Option<AssistantPart> {
    match p
    case Text(text, metadata) => if text == "" then None else Some(TextPart(text, metadata))
    case Reasoning(text, metadata) => Some(ReasoningPart(text, metadata))
    case Custom(kind, metadata) => Some(CustomItem(kind, metadata))
    case FileContent(file) => Some(FileItem(file.base64, file.mediaType, file.metadata))
    case ReasoningFile(file) => Some(ReasoningFileItem(file.base64, file.mediaType, file.metadata))
    case ApprovalContent(a) =>
      var raw := if a.inputSchemaInput.Some? && a.inputSchemaInput.value != a.call.input then a.inputSchemaInput else None;
      Some(ApprovalRequestPart(a.approvalId, a.call.id, a.reason, a.isAutomatic, a.signature, raw))
    case CallContent(call) =>
      Some(CallPart(call.id, call.name, ResponseInput(call.input, call.invalid), call.providerExecuted, call.metadata))
    case ResultContent(r) =>
      if IsTrue(r.providerExecuted)
      then Some(ProviderResult(ResultItem(r.id, Some(r.name), OutputOf(r.output, false), r.metadata)))
      else None
    case ErrorContent(e) =>
      if IsTrue(e.providerExecuted)
      then Some(ProviderResult(ResultItem(e.id, Some(e.name), ErrorJson(e.error), e.metadata)))
      else None
    case Source(_) => None
    case ApprovalResponseContent(_) => None
  }

  function AssistantParts(content: seq<Part>): seq<AssistantPart> {
    if content == [] then []
    else
      var last := AssistantPartOf(content[|content| - 1]);
      AssistantParts(content[..|content| - 1]) + if last.Some? then [last.value] else []
  }

  /** The place of each call id among the calls, by first occurrence. */
  function CallOrder(content: seq<Part>): map<string, nat> {
    if content == [] then map[]
    else
      var order, p := CallOrder(content[..|content| - 1]), content[|content| - 1];
      if p.CallContent? && p.call.id !in order then order[p.call.id := |order|] else order
  }

  // ----- The tool message

  function ToolPartsOf(p: Part): seq<ToolPart> {
    match p
    case ApprovalResponseContent(r) =>
      [ApprovalAnswer(r.approvalId, r.approved, r.reason, r.providerExecuted)] +
      if r.approved then []
      else [ClientResult(ResultItem(r.call.id, Some(r.call.name), ExecutionDenied(r.reason), None))]
    case ResultContent(r) =>
      if IsTrue(r.providerExecuted) then []
      else [ClientResult(ResultItem(r.id, Some(r.name), OutputOf(r.output, false), r.metadata))]
    case ErrorContent(e) =>
      if IsTrue(e.providerExecuted) then []
      else [ClientResult(ResultItem(e.id, Some(e.name), OutputOf(e.error, true), e.metadata))]
    case _ => []
  }

  function ToolParts(content: seq<Part>): seq<ToolPart> {
    if content == [] then [] else ToolParts(content[..|content| - 1]) + ToolPartsOf(content[|content| - 1])
  }

  function Results(parts: seq<ToolPart>): seq<ResultItem> {
    if parts == [] then []
    else
      var last := parts[|parts| - 1];
      Results(parts[..|parts| - 1]) + if last.ClientResult? then [last.result] else []
  }

  /** `a` may stand before `b`: calls in order, results of unknown calls last. */
  predicate InOrder(a: ResultItem, b: ResultItem, order: map<string, nat>) {
    b.callId !in order || (a.callId in order && order[a.callId] <= order[b.callId])
  }

  /** `x` after the last element it need not precede. */
  function InsertResult(sorted: seq<ResultItem>, x: ResultItem, order: map<string, nat>): seq<ResultItem> {
    if sorted == [] || InOrder(sorted[|sorted| - 1], x, order) then sorted + [x]
    else InsertResult(sorted[..|sorted| - 1], x, order) + [sorted[|sorted| - 1]]
  }

  /** The stable sort by call order. */
  function SortResults(results: seq<ResultItem>, order: map<string, nat>): seq<ResultItem> {
    if results == [] then []
    else InsertResult(SortResults(results[..|results| - 1], order), results[|results| - 1], order)
  }

  /** The parts with their results, in turn, replaced by `sorted`. */
  function Refill(parts: seq<ToolPart>, sorted: seq<ResultItem>): seq<ToolPart>
    requires |sorted| == |Results(parts)|
  {
    if parts == [] then []
    else
      var n, m := |parts| - 1, |sorted|;
      if parts[n].ClientResult? then Refill(parts[..n], sorted[..m - 1]) + [ClientResult(sorted[m - 1])]
      else Refill(parts[..n], sorted) + [parts[n]]
  }

  lemma {:induction false} InsertLength(sorted: seq<ResultItem>, x: ResultItem, order: map<string, nat>)
    ensures |InsertResult(sorted, x, order)| == |sorted| + 1
  {
    if sorted != [] && !InOrder(sorted[|sorted| - 1], x, order) { InsertLength(sorted[..|sorted| - 1], x, order); }
  }

  lemma {:induction false} SortLength(results: seq<ResultItem>, order: map<string, nat>)
    ensures |SortResults(results, order)| == |results|
  {
    if results != [] {
      SortLength(results[..|results| - 1], order);
      InsertLength(SortResults(results[..|results| - 1], order), results[|results| - 1], order);
    }
  }

  function ToolMessageContent(content: seq<Part>, order: map<string, nat>): seq<ToolPart> {
    var parts := ToolParts(content);
    SortLength(Results(parts), order);
    Refill(parts, SortResults(Results(parts), order))
  }

  /** The messages a step's content is replayed as. */
  function Messages(content: seq<Part>): seq<Message> {
    var parts := AssistantParts(content);
    var answers := ToolMessageContent(content, CallOrder(content));
    (if parts == [] then [] else [Assistant(parts)]) + (if answers == [] then [] else [Tool(answers)])
  }

  // ----- The sort is the stable sort

  function KeyOf(r: ResultItem, order: map<string, nat>): Option<nat> {
    if r.callId in order then Some(order[r.callId]) else None
  }

  /** The results with one key, in turn. */
  function WithKey(results: seq<ResultItem>, order: map<string, nat>, key: Option<nat>): seq<ResultItem> {
    if results == [] then []
    else
      var last := results[|results| - 1];
      WithKey(results[..|results| - 1], order, key) + if KeyOf(last, order) == key then [last] else []
  }

  ghost predicate Sorted(results: seq<ResultItem>, order: map<string, nat>) {
    forall i, j :: 0 <= i < j < |results| ==> InOrder(results[i], results[j], order)
  }

  lemma {:induction false} InsertSorted(sorted: seq<ResultItem>, x: ResultItem, order: map<string, nat>)
    requires Sorted(sorted, order)
    ensures Sorted(InsertResult(sorted, x, order), order)
    ensures multiset(InsertResult(sorted, x, order)) == multiset(sorted) + multiset{x}
  {
    if sorted != [] && !InOrder(sorted[|sorted| - 1], x, order) {
      var rest, last := sorted[..|sorted| - 1], sorted[|sorted| - 1];
      InsertSorted(rest, x, order);
      InsertNext(sorted, x, order);
      var r := InsertResult(rest, x, order);
      hide InsertResult;
      assert sorted == rest + [last];
      forall i | 0 <= i < |r| ensures InOrder(r[i], last, order) { StaysBefore(sorted, r, x, order, i); }
    } else {
      InsertHere(sorted, x, order);
      hide InsertResult;
    }
  }

  lemma {:induction false} StaysBefore(sorted: seq<ResultItem>, r: seq<ResultItem>, x: ResultItem, order: map<string, nat>, i: nat)
    requires sorted != [] && Sorted(sorted, order) && !InOrder(sorted[|sorted| - 1], x, order)
    requires multiset(r) == multiset(sorted[..|sorted| - 1]) + multiset{x} && i < |r|
    ensures InOrder(r[i], sorted[|sorted| - 1], order)
  {
    var rest := sorted[..|sorted| - 1];
    assert r[i] in multiset(r);
    if r[i] != x {
      assert r[i] in multiset(rest);
      var k :| 0 <= k < |rest| && rest[k] == r[i];
      assert sorted[k] == r[i];
    }
  }

  lemma {:induction false} InsertNext(sorted: seq<ResultItem>, x: ResultItem, order: map<string, nat>)
    requires sorted != [] && !InOrder(sorted[|sorted| - 1], x, order)
    ensures InsertResult(sorted, x, order) == InsertResult(sorted[..|sorted| - 1], x, order) + [sorted[|sorted| - 1]]
  {
  }

  lemma {:induction false} InsertHere(sorted: seq<ResultItem>, x: ResultItem, order: map<string, nat>)
    requires sorted == [] || InOrder(sorted[|sorted| - 1], x, order)
    ensures InsertResult(sorted, x, order) == sorted + [x]
  {
  }

  lemma {:induction false} WithKeySnoc(results: seq<ResultItem>, r: ResultItem, order: map<string, nat>, key: Option<nat>)
    ensures WithKey(results + [r], order, key) == WithKey(results, order, key) + if KeyOf(r, order) == key then [r] else []
  {
    assert (results + [r])[..|results|] == results;
  }

  lemma {:induction false} InsertStable(sorted: seq<ResultItem>, x: ResultItem, order: map<string, nat>, key: Option<nat>)
    ensures WithKey(InsertResult(sorted, x, order), order, key)
         == WithKey(sorted, order, key) + if KeyOf(x, order) == key then [x] else []
  {
    hide WithKey, InsertResult;
    if sorted == [] || InOrder(sorted[|sorted| - 1], x, order) {
      InsertHere(sorted, x, order);
      WithKeySnoc(sorted, x, order, key);
    } else {
      var rest, last := sorted[..|sorted| - 1], sorted[|sorted| - 1];
      InsertStable(rest, x, order, key);
      InsertNext(sorted, x, order);
      assert sorted == rest + [last];
      StableNext(rest, last, x, order, key);
    }
  }

  /** A later element with another key may pass over `x`. */
  lemma {:induction false} StableNext(rest: seq<ResultItem>, last: ResultItem, x: ResultItem, order: map<string, nat>, key: Option<nat>)
    requires !InOrder(last, x, order)
    requires WithKey(InsertResult(rest, x, order), order, key)
          == WithKey(rest, order, key) + if KeyOf(x, order) == key then [x] else []
    ensures WithKey(InsertResult(rest, x, order) + [last], order, key)
         == WithKey(rest + [last], order, key) + if KeyOf(x, order) == key then [x] else []
  {
    KeysDiffer(last, x, order);
    hide *;
    WithKeySnoc(InsertResult(rest, x, order), last, order, key);
    WithKeySnoc(rest, last, order, key);
  }

  lemma {:induction false} KeysDiffer(a: ResultItem, b: ResultItem, order: map<string, nat>)
    requires !InOrder(a, b, order)
    ensures KeyOf(a, order) != KeyOf(b, order)
  {
  }

  /** `SortResults` puts the results in call order and keeps equal ones as they were. */
  lemma {:induction false} SortIsStable(results: seq<ResultItem>, order: map<string, nat>)
    ensures Sorted(SortResults(results, order), order)
    ensures multiset(SortResults(results, order)) == multiset(results)
    ensures forall key :: WithKey(SortResults(results, order), order, key) == WithKey(results, order, key)
  {
    if results != [] {
      var rest, last := results[..|results| - 1], results[|results| - 1];
      SortIsStable(rest, order);
      var sorted := SortResults(rest, order);
      InsertSorted(sorted, last, order);
      assert results == rest + [last];
      forall key ensures WithKey(InsertResult(sorted, last, order), order, key) == WithKey(results, order, key) {
        InsertStable(sorted, last, order, key);
      }
    }
  }

  lemma {:induction false} RefillResults(parts: seq<ToolPart>, sorted: seq<ResultItem>)
    requires |sorted| == |Results(parts)|
    ensures Results(Refill(parts, sorted)) == sorted
  {
    if parts != [] {
      var n, m := |parts| - 1, |sorted|;
      if parts[n].ClientResult? {
        RefillResults(parts[..n], sorted[..m - 1]);
        ResultsSnoc(Refill(parts[..n], sorted[..m - 1]), ClientResult(sorted[m - 1]));
      } else {
        RefillResults(parts[..n], sorted);
        ResultsSnoc(Refill(parts[..n], sorted), parts[n]);
      }
    }
  }

  lemma {:induction false} ResultsSnoc(parts: seq<ToolPart>, last: ToolPart)
    ensures Results(parts + [last]) == Results(parts) + if last.ClientResult? then [last.result] else []
  {
    assert (parts + [last])[..|parts|] == parts;
  }

  lemma {:induction false} RefillPlaces(parts: seq<ToolPart>, sorted: seq<ResultItem>)
    requires |sorted| == |Results(parts)|
    ensures |Refill(parts, sorted)| == |parts|
    ensures forall i :: 0 <= i < |parts| ==>
              Refill(parts, sorted)[i].ClientResult? == parts[i].ClientResult? &&
              (parts[i].ApprovalAnswer? ==> Refill(parts, sorted)[i] == parts[i])
  {
    if parts != [] {
      var n, m := |parts| - 1, |sorted|;
      RefillPlaces(parts[..n], if parts[n].ClientResult? then sorted[..m - 1] else sorted);
    }
  }

  /** The tool message holds the answers of the content: its results are the
      stable sort of theirs by call order, and approval answers keep their places. */
  lemma {:induction false} ToolMessageIsSorted(content: seq<Part>, order: map<string, nat>)
    ensures var parts, message := ToolParts(content), ToolMessageContent(content, order);
            && |message| == |parts|
            && Sorted(Results(message), order)
            && multiset(Results(message)) == multiset(Results(parts))
            && (forall key :: WithKey(Results(message), order, key) == WithKey(Results(parts), order, key))
            && (forall i :: 0 <= i < |parts| && parts[i].ApprovalAnswer? ==> message[i] == parts[i])
  {
    var parts := ToolParts(content);
    SortLength(Results(parts), order);
    SortIsStable(Results(parts), order);
    hide Refill, Results, SortResults, WithKey;
    RefillResults(parts, SortResults(Results(parts), order));
    RefillPlaces(parts, SortResults(Results(parts), order));
  }

  // ----- The code

  method InsertInOrder(sorted: seq<ResultItem>, x: ResultItem, order: map<string, nat>) returns (r: seq<ResultItem>)
    ensures r == InsertResult(sorted, x, order)
  {
    var k := |sorted|;
    assert sorted[..k] == sorted && sorted[k..] == [];
    while k > 0 && !InOrder(sorted[k - 1], x, order)
      invariant k <= |sorted|
      invariant InsertResult(sorted, x, order) == InsertResult(sorted[..k], x, order) + sorted[k..]
    {
      assert sorted[..k][..k - 1] == sorted[..k - 1];
      assert sorted[k - 1..] == [sorted[k - 1]] + sorted[k..];
      k := k - 1;
    }
    r := sorted[..k] + [x] + sorted[k..];
  }

  method SortByCall(results: seq<ResultItem>, order: map<string, nat>) returns (sorted: seq<ResultItem>)
    ensures sorted == SortResults(results, order)
  {
    sorted := [];
    for n := 0 to |results|
      invariant sorted == SortResults(results[..n], order)
    {
      sorted := InsertInOrder(sorted, results[n], order);
      assert results[..n + 1][..n] == results[..n];
    }
    assert results[..|results|] == results;
  }

  method CollectToolParts(content: seq<Part>) returns (parts: seq<ToolPart>, results: seq<ResultItem>)
    ensures parts == ToolParts(content) && results == Results(parts)
  {
    parts, results := [], [];
    for n := 0 to |content|
      invariant parts == ToolParts(content[..n])
    {
      parts := parts + ToolPartsOf(content[n]);
      assert content[..n + 1][..n] == content[..n];
    }
    assert content[..|content|] == content;
    for n := 0 to |parts|
      invariant results == Results(parts[..n])
    {
      if parts[n].ClientResult? { results := results + [parts[n].result]; }
      assert parts[..n + 1][..n] == parts[..n];
    }
    assert parts[..|parts|] == parts;
  }

  method FillIn(parts: seq<ToolPart>, sorted: seq<ResultItem>) returns (message: seq<ToolPart>)
    requires |sorted| == |Results(parts)|
    ensures message == Refill(parts, sorted)
  {
    message := [];
    var next := 0;
    for n := 0 to |parts|
      invariant next == |Results(parts[..n])| <= |sorted|
      invariant message == Refill(parts[..n], sorted[..next])
    {
      ResultsBound(parts, n + 1);
      assert parts[..n + 1][..n] == parts[..n];
      if parts[n].ClientResult? {
        assert sorted[..next + 1][..next] == sorted[..next];
        message := message + [ClientResult(sorted[next])];
        next := next + 1;
      } else {
        message := message + [parts[n]];
      }
    }
    assert parts[..|parts|] == parts && sorted[..next] == sorted;
  }

  method BuildToolMessage(content: seq<Part>, order: map<string, nat>) returns (message: seq<ToolPart>)
    ensures message == ToolMessageContent(content, order)
  {
    var parts, results := CollectToolParts(content);
    var sorted := SortByCall(results, order);
    SortLength(results, order);
    message := FillIn(parts, sorted);
  }

  lemma {:induction false} ResultsBound(parts: seq<ToolPart>, n: nat)
    requires n <= |parts|
    ensures |Results(parts[..n])| <= |Results(parts)|
    decreases |parts|
  {
    if n == |parts| {
      assert parts[..n] == parts;
    } else {
      assert parts[..|parts| - 1][..n] == parts[..n];
      ResultsBound(parts[..|parts| - 1], n);
    }
  }

  class ResponseMessageBuilder {
    var content: seq<Part>
    var textIndexes: map<string, nat>
    var reasoningIndexes: map<string, nat>

    ghost function View(): Builder
      reads this
    {
      Builder(content, textIndexes, reasoningIndexes)
    }

    constructor ()
      ensures View() == EMPTY_BUILDER
    {
      content, textIndexes, reasoningIndexes := [], map[], map[];
    }

    method TextStart(id: string, metadata: Metadata)
      modifies this
      ensures View() == StartText(old(View()), id, metadata)
    {
      textIndexes := textIndexes[id := |content|];
      content := content + [Text("", metadata)];
    }

    method TextDelta(id: string, delta: string, metadata: Metadata)
      modifies this
      ensures View() == AddText(old(View()), id, delta, metadata)
    {
      if id !in textIndexes { return; }
      var index := textIndexes[id];
      if index < |content| && content[index].Text? {
        var part := content[index];
        content := content[index := Text(part.text + delta, if metadata.Some? then metadata else part.metadata)];
      }
    }

    method TextEnd(id: string, metadata: Metadata)
      modifies this
      ensures View() == EndText(old(View()), id, metadata)
    {
      TextDelta(id, "", metadata);
      textIndexes := textIndexes - {id};
    }

    method ReasoningStart(id: string, metadata: Metadata)
      modifies this
      ensures View() == StartReasoning(old(View()), id, metadata)
    {
      reasoningIndexes := reasoningIndexes[id := |content|];
      content := content + [Reasoning("", metadata)];
    }

    method ReasoningDelta(id: string, delta: string, metadata: Metadata)
      modifies this
      ensures View() == AddReasoning(old(View()), id, delta, metadata)
    {
      if id !in reasoningIndexes { return; }
      var index := reasoningIndexes[id];
      if index < |content| && content[index].Reasoning? {
        var part := content[index];
        content := content[index := Reasoning(part.text + delta, if metadata.Some? then metadata else part.metadata)];
      }
    }

    method ReasoningEnd(id: string, metadata: Metadata)
      modifies this
      ensures View() == EndReasoning(old(View()), id, metadata)
    {
      ReasoningDelta(id, "", metadata);
      reasoningIndexes := reasoningIndexes - {id};
    }

    method Add(part: Part)
      modifies this
      ensures View() == Push(old(View()), part)
    {
      content := content + [part];
    }

    method AddResult(result: ToolResult)
      modifies this
      ensures View() == AddProviderResult(old(View()), result)
    {
      if !IsTrue(result.preliminary) { content := content + [ProviderResultContent(content, result)]; }
    }

    method AddStreamedResult(result: TypedToolResult)
      modifies this
      ensures View() == AddTypedResult(old(View()), result)
    {
      if !IsTrue(result.preliminary) { content := content + [ResultContent(result)]; }
    }

    method BuildMessages() returns (messages: seq<Message>)
      ensures messages == Messages(content)
    {
      var parts: seq<AssistantPart>, order: map<string, nat> := [], map[];
      for n := 0 to |content|
        invariant parts == AssistantParts(content[..n]) && order == CallOrder(content[..n])
      {
        var p := content[n];
        if p.CallContent? && p.call.id !in order { order := order[p.call.id := |order|]; }
        var part := AssistantPartOf(p);
        if part.Some? { parts := parts + [part.value]; }
        assert content[..n + 1][..n] == content[..n];
      }
      assert content[..|content|] == content;
      messages := if parts == [] then [] else [Assistant(parts)];
      var answers := BuildToolMessage(content, order);
      if answers != [] { messages := messages + [Tool(answers)]; }
    }
  }
}
