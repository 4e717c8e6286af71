/** What generated content holds of what the model generated. */
module GenerationReplay {
  import opened Wrappers
  import opened Content
  import opened ResponseMessages
  import opened ToolCallRepair
  import opened ResultPatch
  import opened Generation
  import opened Selections
  import Replay = ResponseReplay

  /** Only a preliminary result leaves no part. */
  predicate IsLeftOut(item: ModelOutput) { item.GenResult? && item.result.preliminary == Some(true) }

  /** The first parsed call of an id. */
  ghost predicate IsFirstParsed(calls: seq<ToolCall>, id: string, call: ToolCall) {
    exists k :: 0 <= k < |calls| && calls[k] == call && call.id == id && forall j :: 0 <= j < k ==> calls[j].id != id
  }

  lemma {:induction false} FoundIsFirst(calls: seq<ToolCall>, id: string)
    ensures FindParsed(calls, id).Some? ==> IsFirstParsed(calls, id, FindParsed(calls, id).value)
  {
    if calls != [] {
      if calls[0].id == id {
        assert calls[0] == calls[0];
      } else {
        FoundIsFirst(calls[1..], id);
        if FindParsed(calls[1..], id).Some? {
          var call := FindParsed(calls[1..], id).value;
          var k :| 0 <= k < |calls[1..]| && calls[1..][k] == call && forall j :: 0 <= j < k ==> calls[1..][j].id != id;
          assert calls[k + 1] == call;
          assert forall j :: 0 < j < k + 1 ==> calls[j] == calls[1..][j - 1];
        }
      }
    }
  }

  /** The item that a part of the content holds. */
  ghost predicate Holds(calls: seq<ToolCall>, item: ModelOutput, p: Part) {
    match p
    case Text(text, metadata) => item == GenText(text, metadata)
    case Reasoning(text, metadata) => item == GenReasoning(text, metadata)
    case Custom(kind, metadata) => item == GenCustom(kind, metadata)
    case Source(source) => item == GenSource(source)
    case FileContent(file) => item.GenFile? && item.resolved == Ok(file)
    case ReasoningFile(file) => item.GenReasoningFile? && item.resolved == Ok(file)
    case CallContent(call) => item.GenCall? && IsFirstParsed(calls, item.raw.id, call)
    case ApprovalContent(a) =>
      && item.GenApproval? && a.approvalId == item.approvalId && IsFirstParsed(calls, item.callId, a.call)
      && a.reason.None? && a.isAutomatic.None? && a.signature.None? && a.inputSchemaInput.None?
    case ResultContent(r) =>
      && item.GenResult? && item.result.isError != Some(true) && r.id == item.result.id && r.name == item.result.name
      && r.output == item.result.result && r.metadata == item.result.metadata && r.providerExecuted == Some(true)
      && r.preliminary.None?
    case ErrorContent(e) =>
      && item.GenResult? && item.result.isError == Some(true) && e.id == item.result.id && e.name == item.result.name
      && e.error == item.result.result && e.metadata == item.result.metadata && e.providerExecuted == Some(true)
    case ApprovalResponseContent(_) => false
  }

  /** The input and `dynamic` of a result: those of the first call of its id
      before it in the content, or none and its own. */
  ghost predicate HasCallsInput(content: seq<Part>, k: nat, item: ModelOutput)
    requires k < |content|
  {
    var before := content[..k];
    match content[k]
    case ResultContent(r) => item.GenResult? && IsInputOf(before, r.id, r.input, r.dynamic, item.result.dynamic)
    case ErrorContent(e) => item.GenResult? && IsInputOf(before, e.id, e.input, e.dynamic, item.result.dynamic)
    case _ => true
  }

  predicate IsInputOf(before: seq<Part>, id: string, input: Option<Json>, dynamic: Option<bool>, own: Option<bool>) {
    var i := Replay.FirstCall(before, id);
    if i.Some? then input == Some(before[i.value].call.input) && dynamic == before[i.value].call.dynamic
    else input.None? && dynamic == own
  }

  lemma {:induction false} FindIsFirst(content: seq<Part>, id: string)
    ensures var i := Replay.FirstCall(content, id);
            FindCall(content, id) == if i.Some? then Some(content[i.value].call) else None
  {
    if content != [] {
      if !(content[0].CallContent? && content[0].call.id == id) {
        FindIsFirst(content[1..], id);
        TailFirst(content, id);
      }
    }
  }

  predicate IsCallOf(p: Part, id: string) { p.CallContent? && p.call.id == id }

  /** The first call is the least place of one. */
  lemma {:induction false} LeastIsFirst(content: seq<Part>, id: string, n: nat)
    requires n <= |content| && forall k :: 0 <= k < n ==> !IsCallOf(content[k], id)
    requires n < |content| ==> IsCallOf(content[n], id)
    ensures Replay.FirstCall(content, id) == if n < |content| then Some(n) else None
  {
    assert forall k :: 0 <= k < n ==> content[k].CallContent? ==> content[k].call.id != id;
  }

  lemma {:induction false} TailFirst(content: seq<Part>, id: string)
    requires content != [] && !IsCallOf(content[0], id)
    ensures var i, j := Replay.FirstCall(content, id), Replay.FirstCall(content[1..], id);
            i.Some? == j.Some? && (i.Some? ==> i.value == j.value + 1)
  {
    var tail := content[1..];
    var j := Replay.FirstCall(tail, id);
    var n := if j.Some? then j.value + 1 else |content|;
    forall k | 0 <= k < n ensures !IsCallOf(content[k], id) {
      if k > 0 { assert content[k] == tail[k - 1]; }
    }
    LeastIsFirst(content, id, n);
  }

  lemma {:induction false} ItemIsHeld(env: Env, calls: seq<ToolCall>, before: seq<Part>, item: ModelOutput)
    requires AddItem(env, calls, before, item).Content?
    ensures var parts := AddItem(env, calls, before, item).parts;
            && |before| <= |parts| && parts[..|before|] == before
            && (if IsLeftOut(item) then |parts| == |before|
                else |parts| == |before| + 1 && Holds(calls, item, parts[|before|]) && HasCallsInput(parts, |before|, item))
  {
    match item
    case GenCall(raw, _) => FoundIsFirst(calls, raw.id);
    case GenApproval(_, callId) => FoundIsFirst(calls, callId);
    case GenResult(result) =>
      FindIsFirst(before, result.id);
      if !IsLeftOut(item) { assert (before + [ProviderResultContent(before, result)])[..|before|] == before; }
      hide IsFirstParsed, Replay.FirstCall;
    case _ =>
  }

  ghost predicate AllHeld(calls: seq<ToolCall>, items: seq<ModelOutput>, parts: seq<Part>, places: seq<nat>) {
    && IsSelection(items, parts, places, IsLeftOut, (item, p) => Holds(calls, item, p))
    && forall k :: 0 <= k < |parts| ==> HasCallsInput(parts, k, items[places[k]])
  }

  lemma {:induction false} ItemsAreHeld(env: Env, calls: seq<ToolCall>, items: seq<ModelOutput>, n: nat) returns (places: seq<nat>)
    requires n <= |items| && AddItems(env, calls, items, n).Content?
    ensures AllHeld(calls, items[..n], AddItems(env, calls, items, n).parts, places)
  {
    var holds := (item, p) => Holds(calls, item, p);
    if n == 0 {
      NothingSelected<ModelOutput, Part>(IsLeftOut, holds);
      places := [];
    } else {
      var before, parts := AddItems(env, calls, items, n - 1).parts, AddItems(env, calls, items, n).parts;
      var earlier := ItemsAreHeld(env, calls, items, n - 1);
      ItemIsHeld(env, calls, before, items[n - 1]);
      hide IsSelection, Holds, HasCallsInput, IsLeftOut, AddItem, AddItems;
      var more := parts[|before|..];
      assert parts == before + more && items[..n] == items[..n - 1] + [items[n - 1]];
      places := SelectNext(items[..n - 1], before, earlier, items[n - 1], more, IsLeftOut, holds);
      StillHeld(items[..n - 1], before, earlier, items[n - 1], more, places, calls);
    }
  }

  lemma {:induction false} StillHeld(items: seq<ModelOutput>, before: seq<Part>, earlier: seq<nat>, item: ModelOutput, more: seq<Part>,
                                     places: seq<nat>, calls: seq<ToolCall>)
    requires AllHeld(calls, items, before, earlier) && |earlier| == |before|
    requires places == earlier + if IsLeftOut(item) then [] else [|items|]
    requires if IsLeftOut(item) then more == [] else |more| == 1 && HasCallsInput(before + more, |before|, item)
    ensures |places| == |before + more| && forall k :: 0 <= k < |before + more| ==>
              places[k] < |items + [item]| && HasCallsInput(before + more, k, (items + [item])[places[k]])
  {
    var all, parts := items + [item], before + more;
    hide Holds;
    forall k | 0 <= k < |parts| ensures places[k] < |all| && HasCallsInput(parts, k, all[places[k]]) {
      if k < |before| {
        assert HasCallsInput(before, k, items[earlier[k]]);
        assert parts[..k] == before[..k] && all[places[k]] == items[earlier[k]];
      }
    }
  }

  // ----- The errors of calls

  /** A call that needs no error of its own. */
  predicate NeedsNoError(call: ToolCall) {
    !(call.invalid == Some(true) && call.providerExecuted != Some(true) && call.dynamic == Some(true))
  }

  /** The error for a call: its id, name and input, and the text of what failed. */
  predicate IsErrorFor(call: ToolCall, p: Part) {
    && p.ErrorContent? && p.error.id == call.id && p.error.name == call.name && p.error.input == Some(call.input)
    && p.error.error == Str(if call.error.Some? then Display(call.error.value) else "unknown error")
    && p.error.providerExecuted.None? && p.error.metadata.None? && p.error.dynamic == Some(true)
  }

  lemma {:induction false} ErrorsAreAdded(calls: seq<ToolCall>) returns (places: seq<nat>)
    ensures IsSelection(calls, CallErrors(calls), places, NeedsNoError, IsErrorFor)
  {
    if calls == [] {
      NothingSelected<ToolCall, Part>(NeedsNoError, IsErrorFor);
      places := [];
    } else {
      var rest, last := calls[..|calls| - 1], calls[|calls| - 1];
      var before := ErrorsAreAdded(rest);
      var e := ErrorAfter(last);
      assert if NeedsNoError(last) then e.None? else e.Some? && IsErrorFor(last, ErrorContent(e.value));
      hide IsSelection, NeedsNoError, IsErrorFor, ErrorAfter;
      var more := if e.Some? then [ErrorContent(e.value)] else [];
      places := SelectNext(rest, CallErrors(rest), before, last, more, NeedsNoError, IsErrorFor);
      assert calls == rest + [last] && CallErrors(calls) == CallErrors(rest) + more;
    }
  }

  /** Generated content holds, in order, what the model generated, but for
      preliminary results; then the errors of the calls that could not be parsed. */
  lemma {:induction false} ContentHoldsItems(env: Env, items: seq<ModelOutput>)
    returns (held: nat, places: seq<nat>, errors: seq<nat>)
    requires GeneratedContent(env, items).Content?
    ensures var parts := GeneratedContent(env, items).parts;
            var calls := Parsed(env, items);
            && held <= |parts|
            && AllHeld(calls, items, parts[..held], places)
            && IsSelection(calls, parts[held..], errors, NeedsNoError, IsErrorFor)
  {
    var calls := Parsed(env, items);
    var parts := AddItems(env, calls, items, |items|).parts;
    places := ItemsAreHeld(env, calls, items, |items|);
    errors := ErrorsAreAdded(calls);
    held := |parts|;
    hide AllHeld, IsSelection, AddItems, CallErrors, Parsed;
    assert items[..|items|] == items;
    assert (parts + CallErrors(calls))[..held] == parts && (parts + CallErrors(calls))[held..] == CallErrors(calls);
  }

  predicate IsNotCall(item: ModelOutput) { !item.GenCall? }

  predicate IsParsedFrom(env: Env, item: ModelOutput, call: ToolCall) {
    item.GenCall? && call == ParseToolCall(env.codec, item.raw, env.tools, item.repair)
  }

  /** Every call item is parsed, in order, each with its own repair. */
  lemma {:induction false} CallsAreParsed(env: Env, items: seq<ModelOutput>) returns (places: seq<nat>)
    ensures IsSelection(items, Parsed(env, items), places, IsNotCall,
                        (item, call) => IsParsedFrom(env, item, call))
  {
    var parsed := (item, call) => IsParsedFrom(env, item, call);
    if items == [] {
      NothingSelected<ModelOutput, ToolCall>(IsNotCall, parsed);
      places := [];
    } else {
      var rest, last := items[..|items| - 1], items[|items| - 1];
      var before := CallsAreParsed(env, rest);
      var more := if last.GenCall? then [ParsedItem(env, last)] else [];
      assert items == rest + [last];
      hide IsSelection, ParseToolCall;
      places := SelectNext(rest, Parsed(env, rest), before, last, more, IsNotCall, parsed);
      assert Parsed(env, items) == Parsed(env, rest) + more;
    }
  }
}
