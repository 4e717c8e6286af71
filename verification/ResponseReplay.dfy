/** What the response messages say of the content they are built from. */
module ResponseReplay {
  import opened Wrappers
  import opened Content
  import opened ResponseMessages
  import opened Selections

  // ----- The assistant message

  /** The input of a call that is replayed: no text, number or truth value of one
      that could not be parsed. */
  predicate IsReplayedInput(input: Json, call: ToolCall) {
    if call.invalid == Some(true) && (call.input.Str? || call.input.Number? || call.input.Bool?)
    then input == Obj(map[]) else input == call.input
  }

  /** The part of the content that a part of the assistant message stands for. */
  predicate Replays(p: Part, q: AssistantPart) {
    match q
    case TextPart(text, options) => p == Text(text, options)
    case ReasoningPart(text, options) => p == Reasoning(text, options)
    case CustomItem(kind, options) => p == Custom(kind, options)
    case FileItem(data, mediaType, options) => p == FileContent(File(data, mediaType, options))
    case ReasoningFileItem(data, mediaType, options) => p == ReasoningFile(File(data, mediaType, options))
    case ApprovalRequestPart(approvalId, callId, reason, isAutomatic, signature, input) =>
      && p.ApprovalContent? && p.approval.approvalId == approvalId && p.approval.call.id == callId
      && p.approval.reason == reason && p.approval.isAutomatic == isAutomatic && p.approval.signature == signature
      && (if input.Some? then input == p.approval.inputSchemaInput && input != Some(p.approval.call.input)
          else p.approval.inputSchemaInput in [None, Some(p.approval.call.input)])
    case CallPart(callId, name, input, providerExecuted, options) =>
      && p.CallContent? && p.call.id == callId && p.call.name == name && IsReplayedInput(input, p.call)
      && p.call.providerExecuted == providerExecuted && p.call.metadata == options
    case ProviderResult(r) =>
      match r.output
      case ErrorJson(error) =>
        && p.ErrorContent? && p.error.providerExecuted == Some(true) && p.error.error == error
        && p.error.id == r.callId && r.name == Some(p.error.name) && p.error.metadata == r.options
      case TextOutput(text) => IsResultOf(p, r, Str(text)) && p.result.providerExecuted == Some(true)
      case JsonOutput(value) => IsResultOf(p, r, value) && !value.Str? && p.result.providerExecuted == Some(true)
      case _ => false
  }

  /** The result with this output. */
  predicate IsResultOf(p: Part, r: ResultItem, output: Json) {
    p.ResultContent? && p.result.output == output && p.result.id == r.callId && r.name == Some(p.result.name)
    && p.result.metadata == r.options
  }

  /** Empty text, sources, approval responses, and what the client answers are not
      in the assistant message. */
  predicate IsNotAssistants(p: Part) {
    match p
    case Text(text, _) => text == ""
    case Source(_) => true
    case ApprovalResponseContent(_) => true
    case ResultContent(r) => r.providerExecuted != Some(true)
    case ErrorContent(e) => e.providerExecuted != Some(true)
    case _ => false
  }

  lemma {:induction false} PartReplayed(p: Part)
    ensures var q := AssistantPartOf(p); if IsNotAssistants(p) then q.None? else q.Some? && Replays(p, q.value)
  {
  }

  /** The assistant message has, in order, each part of the content that belongs
      in it, and the part of the message gives it back. */
  lemma {:induction false} AssistantReplays(content: seq<Part>) returns (places: seq<nat>)
    ensures IsSelection(content, AssistantParts(content), places, IsNotAssistants, Replays)
  {
    if content == [] {
      NothingSelected<Part, AssistantPart>(IsNotAssistants, Replays);
      places := [];
    } else {
      var rest, p := content[..|content| - 1], content[|content| - 1];
      assert content == rest + [p];
      var before := AssistantReplays(rest);
      PartReplayed(p);
      var more := if AssistantPartOf(p).Some? then [AssistantPartOf(p).value] else [];
      hide IsSelection, Replays, IsNotAssistants, AssistantPartOf;
      places := SelectNext(rest, AssistantParts(rest), before, p, more, IsNotAssistants, Replays);
    }
  }

  // ----- The tool message

  /** The part of the content that a result in the tool message answers with: an
      error's text, a result's text or value, or the denial of a call. */
  predicate Answers(p: Part, q: ToolPart) {
    match q
    case ApprovalAnswer(approvalId, approved, reason, providerExecuted) =>
      && p.ApprovalResponseContent? && p.response.approvalId == approvalId && p.response.approved == approved
      && p.response.reason == reason && p.response.providerExecuted == providerExecuted
    case ClientResult(r) =>
      match r.output
      case ErrorText(error) =>
        && p.ErrorContent? && p.error.error == error && p.error.providerExecuted != Some(true)
        && p.error.id == r.callId && r.name == Some(p.error.name) && p.error.metadata == r.options
      case TextOutput(text) => IsResultOf(p, r, Str(text)) && p.result.providerExecuted != Some(true)
      case JsonOutput(value) => IsResultOf(p, r, value) && !value.Str? && p.result.providerExecuted != Some(true)
      case ExecutionDenied(reason) =>
        && p.ApprovalResponseContent? && !p.response.approved && p.response.reason == reason
        && p.response.call.id == r.callId && r.name == Some(p.response.call.name) && r.options == None
      case ErrorJson(_) => false
  }

  /** How many parts of the tool message a part gives. */
  function AnswerCount(p: Part): nat {
    match p
    case ResultContent(r) => if r.providerExecuted == Some(true) then 0 else 1
    case ErrorContent(e) => if e.providerExecuted == Some(true) then 0 else 1
    case ApprovalResponseContent(r) => if r.approved then 1 else 2
    case _ => 0
  }

  /** The number of answers that the first parts give. */
  function AnswersBefore(content: seq<Part>, n: nat): nat
    requires n <= |content|
  {
    if n == 0 then 0 else AnswersBefore(content, n - 1) + AnswerCount(content[n - 1])
  }

  /** The answers a part gives: with a denial, the answer to the request first. */
  ghost predicate AreAnswersOf(p: Part, qs: seq<ToolPart>) {
    && |qs| == AnswerCount(p)
    && (forall k :: 0 <= k < |qs| ==> Answers(p, qs[k]))
    && (|qs| > 0 ==> (qs[0].ApprovalAnswer? <==> p.ApprovalResponseContent?))
    && (|qs| > 1 ==> qs[1].ClientResult?)
  }

  lemma {:induction false} PartAnswers(p: Part)
    ensures AreAnswersOf(p, ToolPartsOf(p))
  {
  }

  /** The answers of the part at `i` stand at their place among those of all. */
  ghost predicate AnsweredAt(content: seq<Part>, parts: seq<ToolPart>, i: nat)
    requires i < |content|
  {
    var from, end := AnswersBefore(content, i), AnswersBefore(content, i + 1);
    from <= end <= |parts| && AreAnswersOf(content[i], parts[from..end])
  }

  /** Before sorting, the tool message has the answers of the content, in order. */
  lemma {:induction false} ToolPartsAnswer(content: seq<Part>)
    ensures |ToolParts(content)| == AnswersBefore(content, |content|)
    ensures forall i :: 0 <= i < |content| ==> AnsweredAt(content, ToolParts(content), i)
  {
    if content != [] {
      var n := |content| - 1;
      var rest, p := content[..n], content[n];
      ToolPartsAnswer(rest);
      SameCount(content, n, n);
      PartAnswers(p);
      assert content == rest + [p];
      hide AnsweredAt, AreAnswersOf, ToolPartsOf, AnswerCount;
      assert ToolParts(content) == ToolParts(rest) + ToolPartsOf(p);
      LastAnswered(content, ToolParts(rest));
      forall i | 0 <= i < n ensures AnsweredAt(content, ToolParts(content), i) {
        EarlierAnswered(content, ToolParts(rest), ToolPartsOf(p), i);
      }
    }
  }

  lemma {:induction false} LastAnswered(content: seq<Part>, before: seq<ToolPart>)
    requires content != [] && |before| == AnswersBefore(content, |content| - 1)
    ensures var parts := before + ToolPartsOf(content[|content| - 1]);
            AnsweredAt(content, parts, |content| - 1) && |parts| == AnswersBefore(content, |content|)
  {
    var p := content[|content| - 1];
    PartAnswers(p);
    var parts := before + ToolPartsOf(p);
    hide ToolPartsOf, AnswerCount;
    assert |ToolPartsOf(p)| == AnswerCount(p);
    assert parts[|before|..|parts|] == ToolPartsOf(p);
  }

  lemma {:induction false} EarlierAnswered(content: seq<Part>, before: seq<ToolPart>, more: seq<ToolPart>, i: nat)
    requires i < |content| - 1 && AnsweredAt(content[..|content| - 1], before, i)
    ensures AnsweredAt(content, before + more, i)
  {
    hide AreAnswersOf, AnswersBefore;
    var n := |content| - 1;
    SameCount(content, n, i);
    SameCount(content, n, i + 1);
    var a, b := AnswersBefore(content, i), AnswersBefore(content, i + 1);
    assert (before + more)[a..b] == before[a..b];
  }

  lemma {:induction false} SameCount(content: seq<Part>, n: nat, i: nat)
    requires i <= n <= |content|
    ensures AnswersBefore(content, i) == AnswersBefore(content[..n], i)
  {
    if i > 0 { SameCount(content, n, i - 1); }
  }

  /** A step's messages: the assistant's, unless it has no part, and the tool
      message, unless it has none. */
  lemma {:induction false} MessagesAre(content: seq<Part>)
    ensures var parts, answers := AssistantParts(content), ToolMessageContent(content, CallOrder(content));
            && (forall m :: m in Messages(content) ==>
                  if m.Assistant? then m.parts == parts && parts != [] else m.answers == answers && answers != [])
            && (parts != [] ==> Messages(content) != [] && Messages(content)[0] == Assistant(parts))
            && (answers != [] ==> Messages(content) != [] && Messages(content)[|Messages(content)| - 1] == Tool(answers))
            && |Messages(content)| == (if parts == [] then 0 else 1) + (if answers == [] then 0 else 1)
  {
  }

  /** Where the first call of an id is. */
  function FirstCall(content: seq<Part>, id: string): (i: Option<nat>)
    ensures i.Some? ==> i.value < |content| && content[i.value].CallContent? && content[i.value].call.id == id
    ensures forall k :: 0 <= k < (if i.Some? then i.value else |content|) && content[k].CallContent? ==> content[k].call.id != id
  {
    if content == [] then None
    else
      var n := |content| - 1;
      var before := FirstCall(content[..n], id);
      if before.Some? then before else if content[n].CallContent? && content[n].call.id == id then Some(n) else None
  }

  /** The order of the ids is that of their first calls. */
  ghost predicate IsCallOrder(order: map<string, nat>, content: seq<Part>) {
    && (forall id :: id in order <==> FirstCall(content, id).Some?)
    && (forall id :: id in order ==> order[id] < |order|)
    && (forall x, y :: x in order && y in order ==> Precedes(order, content, x, y))
  }

  ghost predicate Precedes(order: map<string, nat>, content: seq<Part>, x: string, y: string)
    requires x in order && y in order
  {
    var i, j := FirstCall(content, x), FirstCall(content, y);
    i.Some? && j.Some? && (order[x] < order[y] <==> i.value < j.value)
  }

  lemma {:induction false} FirstCallNext(rest: seq<Part>, p: Part, id: string)
    ensures FirstCall(rest + [p], id) ==
            if FirstCall(rest, id).Some? then FirstCall(rest, id)
            else if p.CallContent? && p.call.id == id then Some(|rest|) else None
  {
    assert (rest + [p])[..|rest|] == rest;
  }

  lemma {:induction false} OrderNext(order: map<string, nat>, rest: seq<Part>, p: Part)
    requires IsCallOrder(order, rest)
    ensures IsCallOrder(if p.CallContent? && p.call.id !in order then order[p.call.id := |order|] else order, rest + [p])
  {
    forall id ensures FirstCall(rest + [p], id) ==
                      if FirstCall(rest, id).Some? then FirstCall(rest, id)
                      else if p.CallContent? && p.call.id == id then Some(|rest|) else None
    {
      FirstCallNext(rest, p, id);
    }
    if p.CallContent? && p.call.id !in order {
      NewLast(order, rest, p);
    } else {
      var all := rest + [p];
      forall x, y | x in order && y in order ensures Precedes(order, all, x, y) { assert Precedes(order, rest, x, y); }
    }
  }

  lemma {:induction false} NewLast(order: map<string, nat>, rest: seq<Part>, p: Part)
    requires IsCallOrder(order, rest) && p.CallContent? && p.call.id !in order
    ensures IsCallOrder(order[p.call.id := |order|], rest + [p])
  {
    var order' := order[p.call.id := |order|];
    assert |order'| == |order| + 1;
    forall x ensures x in order' <==> FirstCall(rest + [p], x).Some? { KeyNext(order, rest, p, x); }
    forall x, y | x in order' && y in order' ensures Precedes(order', rest + [p], x, y) { PairNext(order, rest, p, x, y); }
  }

  lemma {:induction false} KeyNext(order: map<string, nat>, rest: seq<Part>, p: Part, x: string)
    requires IsCallOrder(order, rest) && p.CallContent? && p.call.id !in order
    ensures x in order || x == p.call.id <==> FirstCall(rest + [p], x).Some?
    ensures x in order ==>
              FirstCall(rest, x).Some? && FirstCall(rest + [p], x) == FirstCall(rest, x) && order[x] < |order|
    ensures x == p.call.id ==> FirstCall(rest + [p], x) == Some(|rest|)
  {
    FirstCallNext(rest, p, x);
    hide FirstCall, Precedes;
  }

  lemma {:induction false} PairNext(order: map<string, nat>, rest: seq<Part>, p: Part, x: string, y: string)
    requires IsCallOrder(order, rest) && p.CallContent? && p.call.id !in order
    requires (x in order || x == p.call.id) && (y in order || y == p.call.id)
    ensures Precedes(order[p.call.id := |order|], rest + [p], x, y)
  {
    KeyNext(order, rest, p, x);
    KeyNext(order, rest, p, y);
    if x in order && y in order { assert Precedes(order, rest, x, y); }
    hide IsCallOrder;
  }

  /** The calls are ordered by where each id first occurs. */
  lemma {:induction false} OrderIsFirstOccurrence(content: seq<Part>)
    ensures IsCallOrder(CallOrder(content), content)
  {
    if content != [] {
      var rest, p := content[..|content| - 1], content[|content| - 1];
      OrderIsFirstOccurrence(rest);
      assert content == rest + [p];
      OrderNext(CallOrder(rest), rest, p);
      hide IsCallOrder;
    }
  }
}
