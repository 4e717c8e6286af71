/**
 The result of a consumed stream, from the provider to the content: its content
 has the form that repairs are patched into and that histories are extended by,
 and it holds every delta that the pump delivered.
 */
module StreamedResult {
  import opened Wrappers
  import opened Content
  import opened ResponseMessages
  import opened TextStream
  import opened StreamBlocks
  import ResultPatch
  import Generation
  import Pump = StreamPump

  // ----- Content that can be replayed

  ghost predicate Replays(content: seq<Part>) { ResultPatch.Generated(content) && Generation.AnswersInvalid(content) }

  lemma {:induction false} PushReplays(content: seq<Part>, p: Part)
    requires Replays(content) && ResultPatch.IsGeneratedPart(p) && !Generation.IsInvalidCall(p)
    requires p.ErrorContent? ==> IsTrue(p.error.providerExecuted) || ResultPatch.IsCall(content, p.error.id)
    ensures Replays(content + [p])
  {
    var all := content + [p];
    forall k | ResultPatch.HasErrorOf(all, k) ensures ResultPatch.IsCall(all, k) {
      ResultPatch.ErrorSnoc(content, p, k);
      ResultPatch.CallIsSnoc(content, p, k);
    }
    forall i | 0 <= i < |all| && Generation.IsInvalidCall(all[i]) ensures ResultPatch.HasErrorOf(all, all[i].call.id) {
      assert all[i] == content[i];
      ResultPatch.ErrorSnoc(content, p, all[i].call.id);
    }
  }

  /** A call that could not be parsed, with its error. */
  lemma {:induction false} PushInvalidReplays(content: seq<Part>, call: ToolCall)
    requires Replays(content) && InvalidCallError(call).Some?
    ensures Replays(content + [CallContent(call)] + [ErrorContent(InvalidCallError(call).value)])
  {
    var p, e := CallContent(call), ErrorContent(InvalidCallError(call).value);
    var one, all := content + [p], content + [p] + [e];
    forall k | ResultPatch.HasErrorOf(all, k) ensures ResultPatch.IsCall(all, k) {
      ResultPatch.ErrorSnoc(content, p, k);
      ResultPatch.ErrorSnoc(one, e, k);
      ResultPatch.CallIsSnoc(content, p, k);
      ResultPatch.CallIsSnoc(one, e, k);
    }
    forall i | 0 <= i < |all| && Generation.IsInvalidCall(all[i]) ensures ResultPatch.HasErrorOf(all, all[i].call.id) {
      ResultPatch.ErrorSnoc(content, p, all[i].call.id);
      ResultPatch.ErrorSnoc(one, e, all[i].call.id);
      assert i < |content| ==> all[i] == content[i];
    }
  }

  predicate IsProse(p: Part) { p.Text? || p.Reasoning? }

  /** Only text and reasoning differ. */
  ghost predicate SameButProse(a: seq<Part>, b: seq<Part>) {
    |a| == |b| && forall i :: 0 <= i < |a| ==> a[i] == b[i] || (IsProse(a[i]) && IsProse(b[i]))
  }

  lemma {:induction false} ProseReplays(a: seq<Part>, b: seq<Part>)
    requires Replays(a) && SameButProse(a, b)
    ensures Replays(b)
  {
    forall k | ResultPatch.HasErrorOf(b, k) ensures ResultPatch.IsCall(b, k) {
      SameProse(a, b, k);
    }
    forall i | 0 <= i < |b| && Generation.IsInvalidCall(b[i]) ensures ResultPatch.HasErrorOf(b, b[i].call.id) {
      assert a[i] == b[i];
      SameProse(a, b, b[i].call.id);
    }
    assert forall i :: 0 <= i < |a| ==> ResultPatch.IsGeneratedPart(a[i]);
  }

  lemma {:induction false} SameProse(a: seq<Part>, b: seq<Part>, k: string)
    requires SameButProse(a, b)
    ensures ResultPatch.HasErrorOf(a, k) <==> ResultPatch.HasErrorOf(b, k)
    ensures ResultPatch.IsCall(a, k) <==> ResultPatch.IsCall(b, k)
  {
    if ResultPatch.HasErrorOf(a, k) {
      var i :| 0 <= i < |a| && ResultPatch.IsErrorOf(a[i], k);
      assert b[i] == a[i];
    }
    if ResultPatch.HasErrorOf(b, k) {
      var i :| 0 <= i < |b| && ResultPatch.IsErrorOf(b[i], k);
      assert a[i] == b[i];
    }
    if ResultPatch.IsCall(a, k) {
      var i :| 0 <= i < |a| && a[i].CallContent? && a[i].call.id == k;
      assert b[i] == a[i];
    }
    if ResultPatch.IsCall(b, k) {
      var i :| 0 <= i < |b| && b[i].CallContent? && b[i].call.id == k;
      assert a[i] == b[i];
    }
  }

  // ----- What a part of the stream adds

  /** The content a part of no block adds. */
  function Added(p: TextPart): seq<Part> {
    match p
    case OutCall(call) => [CallContent(call)]
    case OutResult(r) => if IsTrue(r.preliminary) then [] else [ResultContent(r)]
    case OutToolError(failure) => [ErrorContent(failure)]
    case OutApprovalResponse(response) => [ApprovalResponseContent(response)]
    case OutSource(source) => [Source(source)]
    case OutFile(file) => [FileContent(file)]
    case OutReasoningFile(file) => [ReasoningFile(file)]
    case OutCustom(kind, metadata) => [Custom(kind, metadata)]
    case OutApproval(approval) => [ApprovalContent(approval)]
    case _ => []
  }

  predicate IsBlockEvent(p: TextPart) {
    || p.OutTextStart? || p.OutTextDelta? || p.OutTextEnd?
    || p.OutReasoningStart? || p.OutReasoningDelta? || p.OutReasoningEnd?
  }

  lemma {:induction false} OtherAdds(b: Builder, p: TextPart)
    requires IsPlain(p) && !IsBlockEvent(p)
    ensures Record(b, p).content == b.content + Added(p)
  {
    assert b.content + [] == b.content;
  }

  lemma {:induction false} BlockAdds(b: Builder, p: TextPart)
    requires IsBlockEvent(p)
    ensures var content := Record(b, p).content;
            if p.OutTextStart? then content == b.content + [Text("", p.metadata)]
            else if p.OutReasoningStart? then content == b.content + [Reasoning("", p.metadata)]
            else SameButProse(b.content, content)
  {
  }

  lemma {:induction false} BlockReplays(b: Builder, p: TextPart)
    requires IsBlockEvent(p) && Replays(b.content)
    ensures Replays(Record(b, p).content)
  {
    BlockAdds(b, p);
    hide Record, Replays;
    if p.OutTextStart? { PushReplays(b.content, Text("", p.metadata)); }
    else if p.OutReasoningStart? { PushReplays(b.content, Reasoning("", p.metadata)); }
    else { ProseReplays(b.content, Record(b, p).content); }
  }

  /** A part that adds nothing that needs an answer, nor a client result. */
  predicate IsSafe(p: TextPart) {
    && IsPlain(p) && !IsBlockEvent(p)
    && forall i :: 0 <= i < |Added(p)| ==>
         && ResultPatch.IsGeneratedPart(Added(p)[i]) && !Added(p)[i].CallContent?
         && (Added(p)[i].ErrorContent? ==> IsTrue(Added(p)[i].error.providerExecuted))
  }

  lemma {:induction false} SafeReplays(b: Builder, p: TextPart)
    requires IsSafe(p) && Replays(b.content)
    ensures Replays(Record(b, p).content)
  {
    OtherAdds(b, p);
    var added := Added(p);
    assert |added| <= 1;
    hide Record, Replays, Added;
    if added == [] { assert b.content + added == b.content; }
    else { assert added == [added[0]]; PushReplays(b.content, added[0]); }
  }

  // ----- Every run

  ghost predicate Replaying(out: seq<Event>) {
    !GatherAll(out, |out|).stopped && Replays(GatherAll(out, |out|).builder.content)
  }

  lemma {:induction false} PlainReplays(out: seq<Event>, p: TextPart)
    requires Replaying(out) && (IsSafe(p) || IsBlockEvent(p))
    ensures Replaying(out + [Ok(p)])
  {
    hide GatherAll, Replays, Record, Gather;
    var g := GatherAll(out, |out|);
    GatherNext(out, Ok(p));
    GatherPlain(g, p);
    if IsBlockEvent(p) { BlockReplays(g.builder, p); } else { SafeReplays(g.builder, p); }
  }

  lemma {:induction false} ErrorReplays(out: seq<Event>, e: Event)
    requires Replaying(out) && (if e.Ok? then e.value.OutError? else IsRecoverable(e.error))
    ensures Replaying(out + [e])
  {
    hide GatherAll, Replays;
    GatherNext(out, e);
  }

  lemma {:induction false} StepReplays(out: seq<Event>, warnings: seq<string>)
    requires Replaying(out)
    ensures Replaying(out + [Ok(StartStep(warnings))])
  {
    GatherNext(out, Ok(StartStep(warnings)));
  }

  lemma {:induction false} CallReplays(out: seq<Event>, call: ToolCall)
    requires Replaying(out)
    ensures var failure := InvalidCallError(call);
            Replaying(out + ([Ok(OutCall(call))] + if failure.Some? then [Ok(OutToolError(failure.value))] else []))
  {
    var failure, one := InvalidCallError(call), out + [Ok(OutCall(call))];
    var g := GatherAll(out, |out|);
    GatherNext(out, Ok(OutCall(call)));
    GatherPlain(g, OutCall(call));
    OtherAdds(g.builder, OutCall(call));
    if failure.Some? {
      var e := OutToolError(failure.value);
      var g1 := GatherAll(one, |one|);
      PushInvalidReplays(g.builder.content, call);
      GatherNext(one, Ok(e));
      GatherPlain(g1, e);
      OtherAdds(g1.builder, e);
      assert out + ([Ok(OutCall(call))] + [Ok(e)]) == one + [Ok(e)];
    } else {
      PushReplays(g.builder.content, CallContent(call));
      assert out + ([Ok(OutCall(call))] + []) == one;
    }
    hide GatherAll, Replays, Gather, Record;
  }

  /** Up to two events: parts that are safe or of blocks, and errors. */
  ghost predicate AreSafe(events: seq<Event>) {
    |events| <= 2 &&
    forall i :: 0 <= i < |events| ==>
      events[i].Ok? && (events[i].value.OutError? || IsSafe(events[i].value) || IsBlockEvent(events[i].value))
  }

  lemma {:induction false} EventReplays(out: seq<Event>, e: Event)
    requires Replaying(out) && e.Ok? && (e.value.OutError? || IsSafe(e.value) || IsBlockEvent(e.value))
    ensures Replaying(out + [e])
  {
    if e.value.OutError? { ErrorReplays(out, e); } else { PlainReplays(out, e.value); }
  }

  lemma {:induction false} SafeEventsReplay(out: seq<Event>, events: seq<Event>)
    requires Replaying(out) && AreSafe(events)
    ensures Replaying(out + events)
  {
    hide Replaying;
    if events == [] {
      assert out + events == out;
    } else {
      EventReplays(out, events[0]);
      if |events| == 1 {
        assert out + events == out + [events[0]];
      } else {
        EventReplays(out + [events[0]], events[1]);
        assert out + events == out + [events[0]] + [events[1]];
      }
    }
  }

  lemma {:induction false} HandleIsSafe(choice: ToolChoice, a: Answers, con: Consumer, part: StreamPart)
    requires !part.Call?
    ensures AreSafe(Handle(choice, a, con, part).1)
  {
    if IsBlockPart(part) {
      BlockIsSafe(choice, a, con, part);
    } else {
      match part
      case ResultPart(result) => ResultIsSafe(result, con.calls); hide IsSafe;
      case Approval(approvalId, callId) => ApprovalIsSafe(con.calls, approvalId, callId); hide IsSafe;
      case FilePart(_) => FileIsSafe(a.file, false); hide IsSafe;
      case ReasoningFilePart(_) => FileIsSafe(a.file, true); hide IsSafe;
      case _ =>
    }
  }

  lemma {:induction false} BlockIsSafe(choice: ToolChoice, a: Answers, con: Consumer, part: StreamPart)
    requires IsBlockPart(part)
    ensures AreSafe(Handle(choice, a, con, part).1)
  {
    hide IsSafe;
  }

  lemma {:induction false} ApprovalIsSafe(calls: map<string, ToolCall>, approvalId: string, callId: string)
    ensures callId in calls ==> IsSafe(OutApproval(ApprovalRequest(approvalId, calls[callId], None, None, None, None)))
  {
  }

  lemma {:induction false} FileIsSafe(resolved: Result<File, AiError>, reasoning: bool)
    ensures var e := FileEvent(resolved, reasoning); e.Ok? && (e.value.OutError? || IsSafe(e.value))
  {
  }

  lemma {:induction false} ResultIsSafe(result: ToolResult, calls: map<string, ToolCall>)
    ensures IsSafe(ProviderResultPart(result, calls))
  {
  }

  lemma {:induction false} PartReplays(choice: ToolChoice, a: Answers, con: Consumer, part: StreamPart, out: seq<Event>)
    requires Replaying(out)
    ensures Replaying(out + Handle(choice, a, con, part).1)
  {
    hide Replaying;
    if part.Call? {
      CallReplays(out, a.call);
    } else {
      HandleIsSafe(choice, a, con, part);
      SafeEventsReplay(out, Handle(choice, a, con, part).1);
    }
  }

  lemma {:induction false} DeliverReplays(choice: ToolChoice, r: Run, d: Delivery)
    requires r.done || Replaying(r.out)
    ensures var r' := Deliver(choice, r, d); r'.done || Replaying(r'.out)
  {
    hide Replaying, Handle;
    if !r.done {
      match d
      case AbortSeen(_) =>
      case Got(Err(e), _) => if IsRecoverable(e) { ErrorReplays(r.out, Err(e)); }
      case Got(Ok(part), a) =>
        var (con, start) := Opened(r.con, part);
        if start == [] { assert r.out + start == r.out; } else { StepReplays(r.out, r.con.warnings); }
        PartReplays(choice, a, con, part, r.out + start);
    }
  }

  lemma {:induction false} RunReplays(choice: ToolChoice, ds: seq<Delivery>, n: nat)
    requires n <= |ds|
    ensures AfterDeliveries(choice, ds, n).done || Replaying(AfterDeliveries(choice, ds, n).out)
  {
    hide Deliver, Replaying;
    if n > 0 {
      RunReplays(choice, ds, n - 1);
      DeliverReplays(choice, AfterDeliveries(choice, ds, n - 1), ds[n - 1]);
    } else {
      StartReplays();
    }
  }

  lemma {:induction false} StartReplays()
    ensures Replaying([Ok(Start)])
  {
    assert GatherAll([Ok(Start)], 1) == Gather(NOTHING_GATHERED, Ok(Start));
  }

  /** The content of a stream that `consume` succeeds on is of the form that
      text generation builds: a repair patches it as it rebuilds it, and a
      history can be extended by its messages. */
  lemma {:induction false} ConsumedIsReplayable(choice: ToolChoice, ds: seq<Delivery>)
    requires ConsumeSpec(Stream(choice, ds)).Ok?
    ensures |ConsumeSpec(Stream(choice, ds)).value.steps| == 1
    ensures var step := ConsumeSpec(Stream(choice, ds)).value.steps[0];
            step.messages == Messages(step.content) && ResultPatch.Generated(step.content) && Generation.AnswersInvalid(step.content)
  {
    hide *;
    var r := AfterDeliveries(choice, ds, |ds|);
    StreamEnds(choice, ds);
    RunReplays(choice, ds, |ds|);
    FinishStepResult(r.out, r.con, StepParts(r.out));
    TrackedReplays(r.out, r.con, r.done);
    EndedRun(choice, ds);
  }

  lemma {:induction false} EndedRun(choice: ToolChoice, ds: seq<Delivery>)
    requires ConsumeSpec(Stream(choice, ds)).Ok?
    ensures !AfterDeliveries(choice, ds, |ds|).done
  {
    hide AfterDeliveries, GatherAll, Tracked;
    var r := AfterDeliveries(choice, ds, |ds|);
    RunIsTracked(choice, ds, |ds|);
    NotFailed(choice, ds);
  }

  lemma {:induction false} TrackedReplays(out: seq<Event>, con: Consumer, done: bool)
    requires Tracked(out, con.activeText, con.activeReasoning) && (done || Replaying(out))
    ensures !done ==> ResultPatch.Generated(BuiltAll(StepParts(out)).content)
                      && Generation.AnswersInvalid(BuiltAll(StepParts(out)).content)
  {
    hide GatherAll, BuiltAll, StepParts, PartsTracked, StepIsPlain;
  }

  // ----- Every delta of the provider

  /** A delta of a block: its id and its text. */
  datatype BlockDelta = BlockDelta(id: string, text: string)

  function PartDelta(p: TextPart, kind: Kind): seq<BlockDelta> {
    if Adds(p, kind).Some? then [BlockDelta(Adds(p, kind).value, Delta(p))] else []
  }

  /** The deltas among the parts of a stream. */
  function Deltas(parts: seq<TextPart>, kind: Kind): seq<BlockDelta> {
    if parts == [] then [] else Deltas(parts[..|parts| - 1], kind) + PartDelta(parts[|parts| - 1], kind)
  }

  function EventDeltas(out: seq<Event>, kind: Kind): seq<BlockDelta> {
    if out == [] then []
    else
      var last := out[|out| - 1];
      EventDeltas(out[..|out| - 1], kind) + if last.Ok? then PartDelta(last.value, kind) else []
  }

  /** An empty text delta without metadata says nothing and is not passed on. */
  function ItemDelta(item: Item, kind: Kind): seq<BlockDelta> {
    match item
    case Ok(TextDelta(id, delta, metadata)) =>
      if kind.TextKind? && (delta != "" || metadata.Some?) then [BlockDelta(id, delta)] else []
    case Ok(ReasoningDelta(id, delta, _)) => if kind.ReasoningKind? then [BlockDelta(id, delta)] else []
    case _ => []
  }

  /** The deltas among the items of the provider. */
  function ItemDeltas(items: seq<Item>, kind: Kind): seq<BlockDelta> {
    if items == [] then [] else ItemDeltas(items[..|items| - 1], kind) + ItemDelta(items[|items| - 1], kind)
  }

  lemma {:induction false} EventDeltasSnoc(out: seq<Event>, e: Event, kind: Kind)
    ensures EventDeltas(out + [e], kind) == EventDeltas(out, kind) + if e.Ok? then PartDelta(e.value, kind) else []
  {
    assert (out + [e])[..|out|] == out;
  }

  /** An event that is no delta. */
  predicate IsSilent(e: Event) { e.Ok? ==> !e.value.OutTextDelta? && !e.value.OutReasoningDelta? }

  lemma {:induction false} SilentAdds(out: seq<Event>, events: seq<Event>, kind: Kind)
    requires forall i :: 0 <= i < |events| ==> IsSilent(events[i])
    ensures EventDeltas(out + events, kind) == EventDeltas(out, kind)
  {
    if events == [] {
      assert out + events == out;
    } else {
      var before, last := events[..|events| - 1], events[|events| - 1];
      assert out + events == (out + before) + [last];
      SilentAdds(out, before, kind);
      EventDeltasSnoc(out + before, last, kind);
      assert EventDeltas(out + before, kind) + [] == EventDeltas(out + before, kind);
    }
  }

  /** What a part yields: the delta that it is, first, and nothing else of the kind. */
  lemma {:induction false} HandleDeltas(choice: ToolChoice, a: Answers, con: Consumer, part: StreamPart, kind: Kind)
    ensures var events := Handle(choice, a, con, part).1;
            if events != [] && !IsSilent(events[0]) then
              events[0].Ok? && PartDelta(events[0].value, kind) == ItemDelta(Ok(part), kind)
              && forall i :: 0 < i < |events| ==> IsSilent(events[i])
            else ItemDelta(Ok(part), kind) == [] && forall i :: 0 <= i < |events| ==> IsSilent(events[i])
  {
    hide Violates;
  }

  lemma {:induction false} PartDeltas(choice: ToolChoice, a: Answers, con: Consumer, part: StreamPart, out: seq<Event>, kind: Kind)
    ensures EventDeltas(out + Handle(choice, a, con, part).1, kind) == EventDeltas(out, kind) + ItemDelta(Ok(part), kind)
  {
    HandleDeltas(choice, a, con, part, kind);
    var events := Handle(choice, a, con, part).1;
    hide Handle, EventDeltas, ItemDelta, PartDelta;
    if events != [] && !IsSilent(events[0]) {
      EventDeltasSnoc(out, events[0], kind);
      SilentAdds(out + [events[0]], events[1..], kind);
      assert out + events == (out + [events[0]]) + events[1..];
    } else {
      SilentAdds(out, events, kind);
      assert EventDeltas(out, kind) + [] == EventDeltas(out, kind);
    }
  }

  /** The items delivered. */
  ghost predicate Carries(ds: seq<Delivery>, items: seq<Item>) {
    |ds| == |items| && forall k :: 0 <= k < |ds| ==> ds[k].Got? && ds[k].item == items[k]
  }

  lemma {:induction false} DeliverDeltas(choice: ToolChoice, r: Run, d: Delivery, kind: Kind)
    requires !r.done && d.Got? && !Deliver(choice, r, d).done
    ensures EventDeltas(Deliver(choice, r, d).out, kind) == EventDeltas(r.out, kind) + ItemDelta(d.item, kind)
  {
    match d
    case Got(Err(e), _) =>
      EventDeltasSnoc(r.out, Err(e), kind);
    case Got(Ok(part), a) =>
      var (con, start) := Opened(r.con, part);
      SilentAdds(r.out, start, kind);
      PartDeltas(choice, a, con, part, r.out + start, kind);
      hide Handle, EventDeltas, ItemDelta;
  }

  lemma {:induction false} StillRunning(choice: ToolChoice, ds: seq<Delivery>, n: nat)
    requires 0 < n <= |ds| && !AfterDeliveries(choice, ds, n).done
    ensures !AfterDeliveries(choice, ds, n - 1).done
  {
    hide Handle;
  }

  lemma {:induction false} NextDelivery(choice: ToolChoice, ds: seq<Delivery>, n: nat)
    requires 0 < n <= |ds|
    ensures AfterDeliveries(choice, ds, n) == Deliver(choice, AfterDeliveries(choice, ds, n - 1), ds[n - 1])
  {
    hide Deliver;
  }

  lemma {:induction false} ItemDeltasNext(items: seq<Item>, n: nat, kind: Kind)
    requires 0 < n <= |items|
    ensures ItemDeltas(items[..n], kind) == ItemDeltas(items[..n - 1], kind) + ItemDelta(items[n - 1], kind)
  {
    hide ItemDelta;
    assert items[..n][..n - 1] == items[..n - 1];
  }

  lemma {:induction false} NoDeltasYet(choice: ToolChoice, ds: seq<Delivery>, items: seq<Item>, kind: Kind)
    ensures EventDeltas(AfterDeliveries(choice, ds, 0).out, kind) == ItemDeltas(items[..0], kind) == []
  {
    var first: seq<Event> := [Ok(Start)];
    SilentAdds([], first, kind);
    assert [] + first == first;
  }

  lemma {:induction false} RunDeltas(choice: ToolChoice, ds: seq<Delivery>, items: seq<Item>, n: nat, kind: Kind)
    requires Carries(ds, items) && n <= |ds| && !AfterDeliveries(choice, ds, n).done
    ensures n <= |items| && EventDeltas(AfterDeliveries(choice, ds, n).out, kind) == ItemDeltas(items[..n], kind)
  {
    hide AfterDeliveries, Deliver, EventDeltas, ItemDeltas;
    if n == 0 {
      NoDeltasYet(choice, ds, items, kind);
    } else {
      StillRunning(choice, ds, n);
      RunDeltas(choice, ds, items, n - 1, kind);
      NextDelivery(choice, ds, n);
      ItemDeltasNext(items, n, kind);
      DeliverDeltas(choice, AfterDeliveries(choice, ds, n - 1), ds[n - 1], kind);
    }
  }

  lemma {:induction false} StepDeltas(out: seq<Event>, kind: Kind)
    requires OpensStep(out)
    ensures EventDeltas(out, kind) == Deltas(StepParts(out), kind)
  {
    if |out| == 2 {
      assert out == [] + [out[0], out[1]];
      SilentAdds([], [out[0], out[1]], kind);
    } else {
      var before, last := out[..|out| - 1], out[|out| - 1];
      assert out == before + [last];
      StepDeltas(before, kind);
      if last.Ok? {
        assert (StepParts(before) + [last.value])[..|StepParts(before)|] == StepParts(before);
      } else {
        assert StepParts(before) + [] == StepParts(before);
        assert EventDeltas(before, kind) + [] == EventDeltas(before, kind);
      }
    }
  }

  /** From the provider to the content: when no deadline fired and `consume`
      succeeds on the stream of what the pump delivered, the pump delivered all
      items up to the first terminal one, and the content holds all their text
      and reasoning deltas: the deltas of the stream's parts are theirs, in
      order, and are kept block by block. */
  lemma {:induction false} EveryDeltaIsKept(c: Pump.Config, states: seq<Pump.State>, steps: seq<Pump.Step>, i: nat,
                                            choice: ToolChoice, ds: seq<Delivery>)
    returns (sent: nat, parts: seq<TextPart>)
    requires Pump.IsRun(c, states, steps) && i < |states| && states[i].closed && states[i].fired.None?
    requires Carries(ds, states[i].received) && ConsumeSpec(Stream(choice, ds)).Ok?
    ensures Pump.Delivers(c, states[i].received, None, sent)
    ensures IsStep(Stream(choice, ds), parts) && |ConsumeSpec(Stream(choice, ds)).value.steps| == 1
    ensures forall kind ::
              && Deltas(parts, kind) == ItemDeltas(c.items[..sent], kind)
              && TextIsKept(ConsumeSpec(Stream(choice, ds)).value.steps[0].content, parts, kind)
  {
    Pump.ReceivedInOrder(c, states, steps, i);
    var received := states[i].received;
    hide *;
    sent := SentItems(c, received, states[i].fired, states[i].taken);
    parts := StreamDeltas(choice, ds, received);
  }

  lemma {:induction false} SentItems(c: Pump.Config, received: seq<Item>, fired: Option<Pump.Deadline>, taken: nat) returns (sent: nat)
    requires fired.None? && exists n: nat :: Pump.Delivers(c, received, fired, n) && taken <= n + 1
    ensures Pump.Delivers(c, received, None, sent) && received == c.items[..sent]
  {
    sent :| Pump.Delivers(c, received, fired, sent) && taken <= sent + 1;
    assert c.items[..sent] + [] == c.items[..sent];
  }

  lemma {:induction false} StreamDeltas(choice: ToolChoice, ds: seq<Delivery>, items: seq<Item>) returns (parts: seq<TextPart>)
    requires Carries(ds, items) && ConsumeSpec(Stream(choice, ds)).Ok?
    ensures IsStep(Stream(choice, ds), parts) && |ConsumeSpec(Stream(choice, ds)).value.steps| == 1
    ensures forall kind ::
              && Deltas(parts, kind) == ItemDeltas(items, kind)
              && TextIsKept(ConsumeSpec(Stream(choice, ds)).value.steps[0].content, parts, kind)
  {
    hide *;
    var r := AfterDeliveries(choice, ds, |ds|);
    EndedRun(choice, ds);
    StreamEnds(choice, ds);
    parts := NothingLost(choice, ds);
    PartsOfStream(r.out, r.con, parts);
    forall kind: Kind ensures Deltas(parts, kind) == ItemDeltas(items, kind) {
      CarriesAll(ds, items);
      RunDeltas(choice, ds, items, |ds|, kind);
      StepDeltas(r.out, kind);
    }
  }

  lemma {:induction false} CarriesAll(ds: seq<Delivery>, items: seq<Item>)
    requires Carries(ds, items)
    ensures |ds| == |items| && items[..|ds|] == items
  {
  }

  lemma {:induction false} PartsOfStream(out: seq<Event>, con: Consumer, parts: seq<TextPart>)
    requires Tracked(out, con.activeText, con.activeReasoning)
    requires IsStep(out + [Ok(FinishStep(con.reason, con.usage)), Ok(Finish(con.reason, con.usage))], parts)
    ensures parts == StepParts(out) && OpensStep(out)
  {
    var all := out + [Ok(FinishStep(con.reason, con.usage)), Ok(Finish(con.reason, con.usage))];
    StepPartsAre(out);
    hide StepParts, GatherAll, BuiltAll, PartsTracked;
    forall k | 0 <= k < |parts| ensures parts[k] == StepParts(out)[k] { assert all[k + 2] == out[k + 2]; }
  }
}
