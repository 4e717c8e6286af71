/**
 What every chunk stream has: one finish chunk, last; at most one role frame,
 first; one identity; and tool indices whose fragments add up to the arguments.
 */
module OpenAiProofs {
  import opened Wrappers
  import opened OpenAiChunks

  // ----- One step

  ghost predicate SameIdentity(c: Chunk, st: State) { c.id == st.id && c.model == st.model && c.created == st.created }

  /** The frame of the chunks of one step from `st`. */
  ghost predicate Frames(st: State, s: Step) {
    && (forall i :: 0 <= i < |s.chunks| ==> SameIdentity(s.chunks[i], s.st))
    && s.st.created == st.created && s.st.hasIdentity == st.hasIdentity
    && (st.startPending ==> s.st.startPending)
    && (s.chunks != [] ==> s.st.started) && (s.st.started && !st.started ==> s.chunks != [])
    && (st.started ==> s.st.started && s.st.id == st.id && s.st.model == st.model)
    && (forall i :: 0 <= i < |s.chunks| && s.chunks[i].delta.Role? ==> i == 0 && !st.started)
    && (st.startPending && !st.started && s.chunks != [] ==> s.chunks[0].delta.Role?)
  }

  ghost predicate Unfinished(s: Step) {
    !s.st.finishEmitted && forall i :: 0 <= i < |s.chunks| ==> !s.chunks[i].delta.Empty?
  }

  ghost predicate Finished(s: Step) {
    && s.st.finishEmitted && s.chunks != [] && s.chunks[|s.chunks| - 1].delta.Empty?
    && forall i :: 0 <= i < |s.chunks| - 1 ==> !s.chunks[i].delta.Empty?
  }

  /** The bookkeeping of tool calls: `order` names the owner of each index. */
  ghost predicate Tracked(st: State) {
    && st.nextIndex == |st.order|
    && (forall id :: id in st.openedIds ==> id in st.toolCalls && st.started)
    && (forall id :: id in st.toolCalls ==> st.toolCalls[id].index < |st.order| && st.order[st.toolCalls[id].index] == id)
    && (forall k :: 0 <= k < |st.order| ==> st.order[k] in st.toolCalls)
  }

  lemma {:induction false} BeginFrames(st: State, reported: Option<Reported>)
    requires !st.finishEmitted
    ensures Frames(st, EnsureStarted(st, reported)) && Unfinished(EnsureStarted(st, reported))
    ensures Frames(st, PendingStart(st, reported)) && Unfinished(PendingStart(st, reported))
    ensures st.startPending && !st.started ==> PendingStart(st, reported).chunks != []
  {
  }

  /** The tool calls aside, the states are the same. */
  ghost predicate SameButTools(st: State, st': State) {
    st' == st.(toolCalls := st'.toolCalls, order := st'.order, nextIndex := st'.nextIndex, openedIds := st'.openedIds)
  }

  /** One chunk, after the role frame if that was still to be sent. */
  lemma {:induction false} SayFrames(st: State, reported: Option<Reported>, st': State, delta: Delta)
    requires !st.finishEmitted && !delta.Role? && !delta.Empty?
    requires SameButTools(EnsureStarted(st, reported).st, st')
    ensures var s := Send(Step(st', EnsureStarted(st, reported).chunks), delta);
            Frames(st, s) && Unfinished(s)
  {
  }

  lemma {:induction false} QuietFrames(st: State, st': State)
    requires !st.finishEmitted
    requires st' == st.(startPending := st'.startPending, id := st'.id, model := st'.model)
    requires (st.startPending ==> st'.startPending) && (st.started ==> st'.id == st.id && st'.model == st.model)
    ensures Frames(st, Step(st', [])) && Unfinished(Step(st', []))
  {
  }

  lemma {:induction false} StepFrames(st: State, part: Part, reported: Option<Reported>, opts: Options)
    requires Tracked(st) && !st.finishEmitted
    ensures var s := ProcessPart(st, part, reported, opts);
            Frames(st, s) && if part.Finish? then Finished(s) else Unfinished(s)
  {
    hide Frames, Unfinished, Finished, EnsureStarted, Send, BackFill;
    BeginFrames(st, reported);
    QuietFrames(st, st);
    var s, s' := EnsureStarted(st, reported), ProcessPart(st, part, reported, opts);
    match part
    case Start => QuietFrames(st, st.(startPending := true));
    case FinishStep(id, model) => if !st.started { QuietFrames(st, st.(id := id, model := model)); }
    case TextDelta(text) => SayFrames(st, reported, s.st, Content(text));
    case ReasoningDelta(text) => SayFrames(st, reported, s.st, Reasoning(text));
    case ToolResult(name, text) => SayFrames(st, reported, s.st, Content("[tool result: " + name + "] " + text));
    case ProviderToolError(name, text) => SayFrames(st, reported, s.st, Content("[tool error: " + name + "] " + text));
    case File(mediaType, base64) => SayFrames(st, reported, s.st, Content("data:" + mediaType + ";base64," + base64));
    case SourceUrl(url) => SayFrames(st, reported, s.st, Content(url));
    case ToolInputStart(_, _) => ToolFrames(st, part, reported, opts);
    case ToolInputDelta(_, _) => ToolFrames(st, part, reported, opts);
    case ToolCall(_, _, _) => ToolFrames(st, part, reported, opts);
    case Finish(reason, raw, usage) => CloseFrames(st, Some(usage), Some((reason, raw)), "", reported, opts);
    case Error(message) => CloseFrames(st, st.usage, st.finish, message, reported, opts);
    case _ =>
  }

  lemma {:induction false} ToolFrames(st: State, part: Part, reported: Option<Reported>, opts: Options)
    requires Tracked(st) && !st.finishEmitted && ToolId(part).Some?
    ensures var s := ProcessPart(st, part, reported, opts); Frames(st, s) && Unfinished(s)
  {
    hide Frames, Unfinished, EnsureStarted, BackFill;
    var s' := ProcessPart(st, part, reported, opts);
    match part
    case ToolInputStart(id, name) =>
      SayFrames(st, reported, s'.st, Tool(s'.st.toolCalls[id].index, Some(id), Some(name), ""));
    case ToolInputDelta(id, delta) =>
      SayFrames(st, reported, s'.st, Tool(s'.st.toolCalls[id].index, None, None, delta));
    case ToolCall(id, name, arguments) =>
      if id !in st.openedIds {
        SayFrames(st, reported, s'.st, Tool(s'.st.toolCalls[id].index, Some(id), Some(name), arguments));
      } else {
        BackFillFrames(st, id, arguments, reported);
      }
  }

  lemma {:induction false} BackFillFrames(st: State, id: string, arguments: string, reported: Option<Reported>)
    requires Tracked(st) && !st.finishEmitted && id in st.openedIds
    ensures Frames(st, BackFill(st, id, arguments)) && Unfinished(BackFill(st, id, arguments))
  {
    hide Frames, Unfinished;
    QuietFrames(st, st);
    var s' := BackFill(st, id, arguments);
    if s'.chunks != [] { SayFrames(st, reported, s'.st, s'.chunks[0].delta); }
  }

  lemma {:induction false} ErrorFrames(st: State, message: string, reported: Option<Reported>)
    requires !st.finishEmitted
    ensures var s := PendingStart(st, reported);
            var e := ErrorChunk(s.st, message);
            Frames(st, Step(e.st, s.chunks + e.chunks)) && Unfinished(Step(e.st, s.chunks + e.chunks))
    ensures ErrorChunk(PendingStart(st, reported).st, message).st.started
  {
  }

  lemma {:induction false} FinalFrames(st: State, s: Step, opts: Options)
    requires Frames(st, s) && Unfinished(s) && (st.startPending && !st.started ==> s.chunks != [])
    ensures var f := FinalChunk(s.st, opts);
            Frames(st, Step(f.st, s.chunks + f.chunks)) && Finished(Step(f.st, s.chunks + f.chunks))
  {
  }

  /** The ways a step ends: an error shown, the finish, or both. */
  lemma {:induction false} CloseFrames(st: State, usage: Option<Usage>, finish: Option<(FinishReason, Option<string>)>,
                                       message: string, reported: Option<Reported>, opts: Options)
    requires !st.finishEmitted
    ensures var s := PendingStart(st.(usage := usage, finish := finish), reported);
            var e := ErrorChunk(s.st, message);
            && Frames(st, Step(e.st, s.chunks + e.chunks)) && Unfinished(Step(e.st, s.chunks + e.chunks))
            && Frames(st, Step(FinalChunk(s.st, opts).st, s.chunks + FinalChunk(s.st, opts).chunks))
            && Finished(Step(FinalChunk(s.st, opts).st, s.chunks + FinalChunk(s.st, opts).chunks))
            && Frames(st, Step(FinalChunk(e.st, opts).st, s.chunks + e.chunks + FinalChunk(e.st, opts).chunks))
            && Finished(Step(FinalChunk(e.st, opts).st, s.chunks + e.chunks + FinalChunk(e.st, opts).chunks))
  {
    var st' := st.(usage := usage, finish := finish);
    var s := PendingStart(st', reported);
    var e := ErrorChunk(s.st, message);
    assert e.chunks != [];
    BeginFrames(st', reported);
    ErrorFrames(st', message, reported);
    hide FinalChunk, ErrorChunk, PendingStart;
    FinalFrames(st', s, opts);
    FinalFrames(st', Step(e.st, s.chunks + e.chunks), opts);
  }

  lemma {:induction false} EndFrames(st: State, message: string, reported: Option<Reported>, opts: Options)
    requires !st.finishEmitted
    ensures Frames(st, Close(st, reported, opts)) && Finished(Close(st, reported, opts))
    ensures Frames(st, Fail(st, message, reported, opts)) && Finished(Fail(st, message, reported, opts))
  {
    hide Frames, Finished, PendingStart, ErrorChunk, FinalChunk;
    CloseFrames(st, st.usage, st.finish, message, reported, opts);
  }

  function FragmentOf(o: Output, index: nat): string {
    if o.ChunkOut? && o.chunk.delta.Tool? && o.chunk.delta.index == index then o.chunk.delta.arguments else ""
  }

  /** The argument fragments sent under an index, in order. */
  function Fragments(out: seq<Output>, index: nat): string {
    if out == [] then "" else Fragments(out[..|out| - 1], index) + FragmentOf(out[|out| - 1], index)
  }

  function ToolId(part: Part): Option<string> {
    match part
    case ToolInputStart(id, _) => Some(id)
    case ToolInputDelta(id, _) => Some(id)
    case ToolCall(id, _, _) => Some(id)
    case _ => None
  }

  /** What a step does to the tool calls: nothing; more arguments for a call,
      sent under its index; or a new index for a call. A tool chunk is last. */
  ghost predicate Tools(st: State, part: Part, s: Step) {
    && (forall i :: 0 <= i < |s.chunks| - 1 ==> !s.chunks[i].delta.Tool?)
    && if s.chunks == [] || !s.chunks[|s.chunks| - 1].delta.Tool? then
         s.st.toolCalls == st.toolCalls && s.st.order == st.order && s.st.nextIndex == st.nextIndex &&
         s.st.openedIds == st.openedIds && (st.started ==> s.st.started) &&
         (ToolId(part).Some? ==> part.ToolCall? && part.id in st.openedIds)
       else
         var d := s.chunks[|s.chunks| - 1].delta;
         && ToolId(part).Some? && s.st.started
         && var id := ToolId(part).value;
         && d.id in [None, Some(id)]
         && (s.st.openedIds == if part.ToolInputDelta? then st.openedIds else st.openedIds + {id})
         && id in s.st.toolCalls && s.st.toolCalls == st.toolCalls[id := s.st.toolCalls[id]]
         && var acc := s.st.toolCalls[id];
         && d.index == acc.index
         && if s.st.order == st.order then
              && s.st.nextIndex == st.nextIndex && (part.ToolCall? ==> id in st.openedIds)
              && id in st.toolCalls && acc.index == st.toolCalls[id].index
              && acc.arguments == st.toolCalls[id].arguments + d.arguments
            else
              && s.st.order == st.order + [id] && s.st.nextIndex == st.nextIndex + 1
              && acc.index == st.nextIndex && acc.arguments == d.arguments
              && (id !in st.toolCalls || (part.ToolCall? && id !in st.openedIds))
  }

  lemma {:induction false} StepTools(st: State, part: Part, reported: Option<Reported>, opts: Options)
    requires Tracked(st)
    ensures Tools(st, part, ProcessPart(st, part, reported, opts))
  {
    hide Tracked, InputStart, InputDelta, BackFill, WholeCall, PendingStart, FinalChunk, ErrorChunk;
    match part
    case ToolInputStart(id, name) => hide Tools; StartTools(st, id, name, reported);
    case ToolInputDelta(id, delta) => hide Tools; DeltaTools(st, id, delta, reported);
    case ToolCall(id, name, arguments) => hide Tools; CallTools(st, id, name, arguments, reported);
    case Finish(reason, raw, usage) =>
      EndTools(st.(usage := Some(usage), finish := Some((reason, raw))), part, "", reported, opts);
    case Error(message) => hide Tools; EndTools(st, part, message, reported, opts);
    case _ =>
      OtherIsQuiet(st, part, reported, opts);
      hide ProcessPart;
  }

  lemma {:induction false} OtherIsQuiet(st: State, part: Part, reported: Option<Reported>, opts: Options)
    requires ToolId(part).None? && !part.Finish? && !part.Error?
    ensures Quiet(st, ProcessPart(st, part, reported, opts))
  {
  }

  lemma {:induction false} StartTools(st: State, id: string, name: string, reported: Option<Reported>)
    ensures Tools(st, ToolInputStart(id, name), InputStart(EnsureStarted(st, reported), id, name))
  {
    if id in st.toolCalls {
      assert st.toolCalls == st.toolCalls[id := st.toolCalls[id]];
      assert st.toolCalls[id].arguments == st.toolCalls[id].arguments + "";
    } else {
      assert st.order + [id] != st.order;
    }
  }

  lemma {:induction false} DeltaTools(st: State, id: string, delta: string, reported: Option<Reported>)
    ensures Tools(st, ToolInputDelta(id, delta), InputDelta(EnsureStarted(st, reported), id, delta))
  {
    assert st.order + [id] != st.order;
  }

  lemma {:induction false} CallTools(st: State, id: string, name: string, arguments: string, reported: Option<Reported>)
    requires Tracked(st)
    ensures Tools(st, ToolCall(id, name, arguments),
                  if id in st.openedIds then BackFill(st, id, arguments)
                  else WholeCall(EnsureStarted(st, reported), id, name, arguments))
  {
    if id in st.openedIds { BackFillTools(st, id, name, arguments); } else { WholeTools(st, id, name, arguments, reported); }
    hide Tools, BackFill, WholeCall;
  }

  lemma {:induction false} BackFillTools(st: State, id: string, name: string, arguments: string)
    requires Tracked(st) && id in st.openedIds
    ensures Tools(st, ToolCall(id, name, arguments), BackFill(st, id, arguments))
  {
    assert st.openedIds + {id} == st.openedIds;
  }

  lemma {:induction false} WholeTools(st: State, id: string, name: string, arguments: string, reported: Option<Reported>)
    requires id !in st.openedIds
    ensures Tools(st, ToolCall(id, name, arguments), WholeCall(EnsureStarted(st, reported), id, name, arguments))
  {
    assert st.order + [id] != st.order;
  }

  /** A step that has nothing to do with tool calls. */
  ghost predicate Quiet(st: State, s: Step) {
    && (forall i :: 0 <= i < |s.chunks| ==> !s.chunks[i].delta.Tool?)
    && s.st.toolCalls == st.toolCalls && s.st.order == st.order && s.st.nextIndex == st.nextIndex
    && s.st.openedIds == st.openedIds && (st.started ==> s.st.started)
  }

  lemma {:induction false} QuietThen(st: State, s: Step, t: Step, part: Part)
    requires Quiet(st, s) && Quiet(s.st, t)
    ensures Quiet(st, Step(t.st, s.chunks + t.chunks))
    ensures ToolId(part).None? ==> Tools(st, part, Step(t.st, s.chunks + t.chunks))
  {
  }

  lemma {:induction false} EndsAreQuiet(st: State, message: string, reported: Option<Reported>, opts: Options)
    ensures Quiet(st, PendingStart(st, reported)) && Quiet(st, ErrorChunk(st, message)) && Quiet(st, FinalChunk(st, opts))
  {
  }

  lemma {:induction false} EndTools(st: State, part: Part, message: string, reported: Option<Reported>, opts: Options)
    requires ToolId(part).None?
    ensures var s := PendingStart(st, reported);
            var e := ErrorChunk(s.st, message);
            && Tools(st, part, Step(e.st, s.chunks + e.chunks))
            && Tools(st, part, Step(FinalChunk(s.st, opts).st, s.chunks + FinalChunk(s.st, opts).chunks))
            && Tools(st, part, Step(FinalChunk(e.st, opts).st, s.chunks + e.chunks + FinalChunk(e.st, opts).chunks))
  {
    hide Quiet, Tools, PendingStart, ErrorChunk, FinalChunk;
    var s := PendingStart(st, reported);
    var e := ErrorChunk(s.st, message);
    EndsAreQuiet(st, message, reported, opts);
    EndsAreQuiet(s.st, message, reported, opts);
    EndsAreQuiet(e.st, message, reported, opts);
    QuietThen(st, s, e, part);
    QuietThen(st, s, FinalChunk(s.st, opts), part);
    QuietThen(st, Step(e.st, s.chunks + e.chunks), FinalChunk(e.st, opts), part);
  }

  // ----- The run

  ghost predicate IsRole(o: Output) { o.ChunkOut? && o.chunk.delta.Role? }

  ghost predicate IsFinish(o: Output) { o.ChunkOut? && o.chunk.delta.Empty? }

  /** No chunk comes before the one at `i`. */
  ghost predicate IsFirstChunk(out: seq<Output>, i: nat)
    requires i < |out|
  {
    out[i].ChunkOut? && forall k :: 0 <= k < i ==> out[k].ErrorOut?
  }

  ghost predicate Framed(r: Run) {
    && (forall i :: 0 <= i < |r.out| && r.out[i].ChunkOut? ==> r.st.started && SameIdentity(r.out[i].chunk, r.st))
    && (forall i :: 0 <= i < |r.out| && IsRole(r.out[i]) ==> IsFirstChunk(r.out, i))
    && r.st.finishEmitted == r.done
    && (r.done ==> r.out != [] && IsFinish(r.out[|r.out| - 1]))
    && (forall i :: 0 <= i < |r.out| - (if r.done then 1 else 0) ==> !IsFinish(r.out[i]))
  }

  /** The run began with `Start`: the role frame is sent, or waits. */
  ghost predicate Opening(r: Run) {
    && (r.st.started || r.st.startPending)
    && (r.st.started ==> exists i :: 0 <= i < |r.out| && r.out[i].ChunkOut?)
    && (forall i :: 0 <= i < |r.out| && IsFirstChunk(r.out, i) ==> IsRole(r.out[i]))
  }

  lemma {:induction false} EmitFrames(r: Run, s: Step, done: bool)
    requires Framed(r) && !r.done && Frames(r.st, s) && if done then Finished(s) else Unfinished(s)
    ensures Framed(Emit(r, s, done))
    ensures Opening(r) ==> Opening(Emit(r, s, done))
  {
    var r', n := Emit(r, s, done), |r.out|;
    assert forall i :: n <= i < |r'.out| ==> r'.out[i] == ChunkOut(s.chunks[i - n]);
    assert forall i :: 0 <= i < n ==> r'.out[i] == r.out[i];
    if Opening(r) { EmitOpening(r, s, done); }
  }

  lemma {:induction false} EmitOpening(r: Run, s: Step, done: bool)
    requires Framed(r) && Frames(r.st, s) && Opening(r)
    ensures Opening(Emit(r, s, done))
  {
    var r', n := Emit(r, s, done), |r.out|;
    assert forall i :: n <= i < |r'.out| ==> r'.out[i] == ChunkOut(s.chunks[i - n]);
    assert forall i :: 0 <= i < n ==> r'.out[i] == r.out[i];
    if r.st.started {
      var i :| 0 <= i < n && r.out[i].ChunkOut?;
      assert r'.out[i].ChunkOut?;
    } else if s.chunks != [] {
      assert r'.out[n].ChunkOut?;
    }
    forall i | 0 <= i < |r'.out| && IsFirstChunk(r'.out, i) ensures IsRole(r'.out[i]) {
      if i < n { assert IsFirstChunk(r.out, i); }
    }
  }

  ghost predicate IsTool(o: Output, index: nat) { o.ChunkOut? && o.chunk.delta.Tool? && o.chunk.delta.index == index }

  ghost predicate Consistent(r: Run) {
    && Tracked(r.st)
    && (forall id :: id in r.st.toolCalls ==> Fragments(r.out, r.st.toolCalls[id].index) == r.st.toolCalls[id].arguments)
    && OwnedIndices(r.out, r.st.order)
    && IndicesInOrder(r.out)
    && (forall k :: 0 <= k < |r.st.order| ==> Shown(r.out, k))
  }

  /** Every index is one of `order`, and a chunk that names a call names its owner. */
  ghost predicate OwnedIndices(out: seq<Output>, order: seq<string>) {
    forall i :: 0 <= i < |out| && out[i].ChunkOut? && out[i].chunk.delta.Tool? ==>
      var d := out[i].chunk.delta;
      d.index < |order| && (d.id.Some? ==> d.id.value == order[d.index])
  }

  /** Indices first appear as 0, 1, 2, ... */
  ghost predicate IndicesInOrder(out: seq<Output>) {
    forall i, k :: 0 <= i < |out| && k > 0 && IsTool(out[i], k) ==> Shown(out[..i], k - 1)
  }

  ghost predicate Shown(out: seq<Output>, index: nat) { exists i :: 0 <= i < |out| && IsTool(out[i], index) }

  lemma {:induction false} ShownLater(out: seq<Output>, more: seq<Output>, index: nat)
    requires Shown(out, index) && out <= more
    ensures Shown(more, index)
  {
    var i :| 0 <= i < |out| && IsTool(out[i], index);
    assert IsTool(more[i], index);
  }

  lemma {:induction false} FragmentsAppend(out: seq<Output>, more: seq<Output>, index: nat)
    ensures Fragments(out + more, index) == Fragments(out, index) + Fragments(more, index)
  {
    if more == [] {
      assert out + more == out;
    } else {
      assert (out + more)[..|out + more| - 1] == out + more[..|more| - 1];
      FragmentsAppend(out, more[..|more| - 1], index);
    }
  }

  lemma {:induction false} NoFragments(out: seq<Output>, index: nat)
    requires forall i :: 0 <= i < |out| ==> !IsTool(out[i], index)
    ensures Fragments(out, index) == ""
  {
    if out != [] { NoFragments(out[..|out| - 1], index); }
  }

  /** A step's fragments: those of its last chunk. */
  lemma {:induction false} StepFragments(st: State, part: Part, s: Step, index: nat)
    requires Tools(st, part, s)
    ensures Fragments(Outputs(s.chunks), index)
         == if s.chunks == [] then "" else FragmentOf(ChunkOut(s.chunks[|s.chunks| - 1]), index)
  {
    var out := Outputs(s.chunks);
    if out != [] { NoFragments(out[..|out| - 1], index); }
  }

  lemma {:induction false} KeepsTracked(st: State, part: Part, s: Step)
    requires Tracked(st) && Tools(st, part, s)
    ensures Tracked(s.st) && st.order <= s.st.order
  {
  }

  lemma {:induction false} EmitTools(r: Run, part: Part, s: Step, done: bool)
    requires Consistent(r) && Tools(r.st, part, s)
    ensures Consistent(Emit(r, s, done))
  {
    KeepsTracked(r.st, part, s);
    EmitFragments(r, part, s, done);
    EmitIndices(r, part, s, done);
  }

  lemma {:induction false} EmitFragments(r: Run, part: Part, s: Step, done: bool)
    requires Consistent(r) && Tools(r.st, part, s)
    ensures forall id :: id in s.st.toolCalls ==>
              Fragments(Emit(r, s, done).out, s.st.toolCalls[id].index) == s.st.toolCalls[id].arguments
  {
    forall id | id in s.st.toolCalls
      ensures Fragments(r.out + Outputs(s.chunks), s.st.toolCalls[id].index) == s.st.toolCalls[id].arguments
    {
      var k := s.st.toolCalls[id].index;
      FragmentsAppend(r.out, Outputs(s.chunks), k);
      StepFragments(r.st, part, s, k);
      if k == |r.st.order| { NoFragments(r.out, k); }
      hide Fragments;
      CallFragments(r.st, part, s, id);
    }
  }

  lemma {:induction false} CallFragments(st: State, part: Part, s: Step, id: string)
    requires Tracked(st) && Tools(st, part, s) && id in s.st.toolCalls
    ensures var acc := s.st.toolCalls[id];
            var sent := if s.chunks == [] then "" else FragmentOf(ChunkOut(s.chunks[|s.chunks| - 1]), acc.index);
            if id in st.toolCalls && st.toolCalls[id].index == acc.index
            then acc.arguments == st.toolCalls[id].arguments + sent
            else acc.index == |st.order| && acc.arguments == "" + sent
  {
    KeepsTracked(st, part, s);
    var acc := s.st.toolCalls[id];
    if Some(id) != ToolId(part) && id in st.toolCalls {
      assert acc.arguments == acc.arguments + "";
    }
  }

  lemma {:induction false} EmitIndices(r: Run, part: Part, s: Step, done: bool)
    requires Consistent(r) && Tools(r.st, part, s) && Tracked(s.st)
    ensures var out := Emit(r, s, done).out;
            && OwnedIndices(out, s.st.order) && IndicesInOrder(out)
            && forall k :: 0 <= k < |s.st.order| ==> Shown(out, k)
  {
    hide Fragments;
    EmitOwned(r, part, s, done);
    hide OwnedIndices;
    EmitShown(r, part, s, done);
    hide Shown;
    EmitInOrder(r, part, s, done);
    hide IndicesInOrder;
  }

  lemma {:induction false} EmitOwned(r: Run, part: Part, s: Step, done: bool)
    requires OwnedIndices(r.out, r.st.order) && Tracked(r.st) && Tools(r.st, part, s) && Tracked(s.st)
    ensures OwnedIndices(Emit(r, s, done).out, s.st.order) && r.st.order <= s.st.order
  {
    KeepsTracked(r.st, part, s);
    hide Tracked, Tools;
    var out, n := Emit(r, s, done).out, |r.out|;
    forall i | 0 <= i < |out| && out[i].ChunkOut? && out[i].chunk.delta.Tool?
      ensures var d := out[i].chunk.delta; d.index < |s.st.order| && (d.id.Some? ==> d.id.value == s.st.order[d.index])
    {
      if i < n {
        assert out[i] == r.out[i];
      } else {
        assert out[i] == ChunkOut(s.chunks[i - n]);
        IndexOfTool(r.st, part, s, i - n);
      }
    }
  }

  lemma {:induction false} EmitShown(r: Run, part: Part, s: Step, done: bool)
    requires Tracked(r.st) && Tools(r.st, part, s) && Tracked(s.st) && forall k :: 0 <= k < |r.st.order| ==> Shown(r.out, k)
    ensures forall k :: 0 <= k < |s.st.order| ==> Shown(Emit(r, s, done).out, k)
  {
    var out := Emit(r, s, done).out;
    forall k | 0 <= k < |s.st.order| ensures Shown(out, k) {
      if k < |r.st.order| { ShownLater(r.out, out, k); } else { assert IsTool(out[|out| - 1], k); }
    }
  }

  lemma {:induction false} EmitInOrder(r: Run, part: Part, s: Step, done: bool)
    requires Tracked(r.st) && Tools(r.st, part, s) && Tracked(s.st) && IndicesInOrder(r.out)
    requires forall k :: 0 <= k < |r.st.order| ==> Shown(r.out, k)
    ensures IndicesInOrder(Emit(r, s, done).out)
  {
    var out, n := Emit(r, s, done).out, |r.out|;
    hide Shown;
    assert forall i :: n <= i < |out| ==> out[i] == ChunkOut(s.chunks[i - n]);
    assert forall i :: 0 <= i < n ==> out[i] == r.out[i];
    forall i, k | 0 <= i < |out| && k > 0 && IsTool(out[i], k) ensures Shown(out[..i], k - 1) {
      if i < n {
        assert IsTool(r.out[i], k);
        assert out[..i] == r.out[..i];
      } else {
        ShownLater(r.out, out[..i], k - 1);
      }
    }
  }

  // ----- Every run

  ghost predicate Sound(r: Run) { Framed(r) && Consistent(r) }

  lemma {:induction false} AdvanceSound(r: Run, input: Input, opts: Options)
    requires Sound(r)
    ensures Sound(Advance(r, input, opts))
    ensures Opening(r) ==> Opening(Advance(r, input, opts))
    ensures r.st.order <= Advance(r, input, opts).st.order
  {
    hide Framed, Consistent, Opening, Frames, Finished, Unfinished, Tools, Tracked, Emit, ProcessPart, Fail;
    if !r.done {
      assert Tracked(r.st) && !r.st.finishEmitted by { SoundState(r); }
      match input
      case PartIn(part, reported) =>
        StepFrames(r.st, part, reported, opts);
        StepTools(r.st, part, reported, opts);
        EmitSound(r, part, ProcessPart(r.st, part, reported, opts), part.Finish?);
      case RecoverableError(message) =>
        ErrorSound(r, message);
      case FatalError(message, reported) =>
        EndFrames(r.st, message, reported, opts);
        FailTools(r.st, message, reported, opts);
        EmitSound(r, NoEquivalent, Fail(r.st, message, reported, opts), true);
    }
  }

  lemma {:induction false} SoundState(r: Run)
    requires Sound(r) && !r.done
    ensures Tracked(r.st) && !r.st.finishEmitted
  {
  }

  lemma {:induction false} FailTools(st: State, message: string, reported: Option<Reported>, opts: Options)
    ensures Tools(st, NoEquivalent, Fail(st, message, reported, opts))
    ensures Tools(st, NoEquivalent, Close(st, reported, opts))
  {
    hide Tools, PendingStart, ErrorChunk, FinalChunk;
    EndTools(st, NoEquivalent, message, reported, opts);
  }

  lemma {:induction false} EmitSound(r: Run, part: Part, s: Step, done: bool)
    requires Sound(r) && !r.done && Frames(r.st, s) && Tools(r.st, part, s)
    requires if done then Finished(s) else Unfinished(s)
    ensures Sound(Emit(r, s, done)) && r.st.order <= Emit(r, s, done).st.order
    ensures Opening(r) ==> Opening(Emit(r, s, done))
  {
    EmitFrames(r, s, done);
    EmitTools(r, part, s, done);
    KeepsTracked(r.st, part, s);
  }

  lemma {:induction false} ErrorSound(r: Run, message: string)
    requires Sound(r) && !r.done
    ensures Sound(r.(out := r.out + [ErrorOut(message)]))
    ensures Opening(r) ==> Opening(r.(out := r.out + [ErrorOut(message)]))
  {
    var r' := r.(out := r.out + [ErrorOut(message)]);
    assert forall i :: 0 <= i < |r.out| ==> r'.out[i] == r.out[i];
    forall id | id in r.st.toolCalls
      ensures Fragments(r'.out, r.st.toolCalls[id].index) == r.st.toolCalls[id].arguments
    {
      FragmentsAppend(r.out, [ErrorOut(message)], r.st.toolCalls[id].index);
      NoFragments([ErrorOut(message)], r.st.toolCalls[id].index);
    }
    hide Fragments;
    forall k | 0 <= k < |r.st.order| ensures Shown(r'.out, k) { ShownLater(r.out, r'.out, k); }
    forall i, k | 0 <= i < |r'.out| && k > 0 && IsTool(r'.out[i], k) ensures Shown(r'.out[..i], k - 1) {
      assert IsTool(r.out[i], k);
      assert r'.out[..i] == r.out[..i];
    }
    if Opening(r) {
      if r.st.started {
        var i :| 0 <= i < |r.out| && r.out[i].ChunkOut?;
        assert r'.out[i].ChunkOut?;
      }
      forall i | 0 <= i < |r'.out| && IsFirstChunk(r'.out, i) ensures IsRole(r'.out[i]) { assert IsFirstChunk(r.out, i); }
    }
  }

  lemma {:induction false} AfterSound(st: State, inputs: seq<Input>, n: nat, opts: Options)
    requires n <= |inputs| && Sound(Run(st, [], false))
    ensures Sound(After(st, inputs, n, opts))
    ensures 0 < n && inputs[0].PartIn? && inputs[0].part.Start? && !st.started ==> Opening(After(st, inputs, n, opts))
  {
    hide Sound, Opening, Advance;
    if n > 0 {
      AfterSound(st, inputs, n - 1, opts);
      AdvanceSound(After(st, inputs, n - 1, opts), inputs[n - 1], opts);
      if n == 1 && inputs[0].PartIn? && inputs[0].part.Start? && !st.started {
        StartOpens(st, inputs[0], opts);
      }
    }
  }

  lemma {:induction false} StartOpens(st: State, input: Input, opts: Options)
    requires input.PartIn? && input.part.Start? && !st.started
    ensures Opening(Advance(Run(st, [], false), input, opts))
  {
    var r := Advance(Run(st, [], false), input, opts);
    if r.st.started { assert r.out[0].ChunkOut?; }
  }

  lemma {:induction false} InitialSound(id: string, model: string, created: nat, hasIdentity: bool)
    ensures Sound(Run(Initial(id, model, created, hasIdentity), [], false))
    ensures !Initial(id, model, created, hasIdentity).started
  {
  }

  lemma {:induction false} ConvertSound(st: State, inputs: seq<Input>, reported: Option<Reported>, opts: Options)
    requires Sound(Run(st, [], false))
    ensures Sound(Convert(st, inputs, reported, opts)) && Convert(st, inputs, reported, opts).done
    ensures inputs != [] && inputs[0].PartIn? && inputs[0].part.Start? && !st.started ==>
              Opening(Convert(st, inputs, reported, opts))
    ensures After(st, inputs, |inputs|, opts).st.order == Convert(st, inputs, reported, opts).st.order
  {
    hide Framed, Consistent, Opening, Frames, Finished, Unfinished, Tools, Tracked, Close;
    AfterSound(st, inputs, |inputs|, opts);
    var r := After(st, inputs, |inputs|, opts);
    if !r.done {
      SoundState(r);
      EndFrames(r.st, "", reported, opts);
      FailTools(r.st, "", reported, opts);
      EmitSound(r, NoEquivalent, Close(r.st, reported, opts), true);
      CloseKeepsOrder(r.st, reported, opts);
    }
  }

  lemma {:induction false} CloseKeepsOrder(st: State, reported: Option<Reported>, opts: Options)
    ensures Close(st, reported, opts).st.order == st.order
  {
  }

  // ----- The theorems

  /** For every input stream: one finish chunk, last; role frames only as the
      first chunk, and there when the input begins with `Start`; one identity. */
  lemma {:induction false} StreamIsFramed(id: string, model: string, created: nat, hasIdentity: bool, inputs: seq<Input>,
                                          reported: Option<Reported>, opts: Options)
    ensures var out := Convert(Initial(id, model, created, hasIdentity), inputs, reported, opts).out;
            && out != [] && (forall i :: 0 <= i < |out| ==> (IsFinish(out[i]) <==> i == |out| - 1))
            && (forall i :: 0 <= i < |out| && IsRole(out[i]) ==> IsFirstChunk(out, i))
            && (inputs != [] && inputs[0].PartIn? && inputs[0].part.Start? ==>
                  forall i :: 0 <= i < |out| && IsFirstChunk(out, i) ==> IsRole(out[i]))
            && (forall i, j :: 0 <= i < |out| && 0 <= j < |out| && out[i].ChunkOut? && out[j].ChunkOut? ==>
                  var c, d := out[i].chunk, out[j].chunk;
                  c.id == d.id && c.model == d.model && c.created == d.created)
  {
    var st := Initial(id, model, created, hasIdentity);
    InitialSound(id, model, created, hasIdentity);
    hide Convert, Initial, Consistent;
    ConvertSound(st, inputs, reported, opts);
  }

  /** For every input stream: each index has one owner, indices first appear in
      order, and the fragments under a call's index are its recorded arguments. */
  lemma {:induction false} IndicesAreConsistent(id: string, model: string, created: nat, hasIdentity: bool, inputs: seq<Input>,
                                                reported: Option<Reported>, opts: Options)
    ensures var r := Convert(Initial(id, model, created, hasIdentity), inputs, reported, opts);
            && OwnedIndices(r.out, r.st.order) && IndicesInOrder(r.out)
            && forall call :: call in r.st.toolCalls ==>
                 var acc := r.st.toolCalls[call];
                 acc.index < |r.st.order| && r.st.order[acc.index] == call && Fragments(r.out, acc.index) == acc.arguments
  {
    var st := Initial(id, model, created, hasIdentity);
    InitialSound(id, model, created, hasIdentity);
    hide Convert, Initial, Framed, OwnedIndices, IndicesInOrder, Fragments;
    ConvertSound(st, inputs, reported, opts);
  }

  lemma {:induction false} OrderGrows(st: State, inputs: seq<Input>, n: nat, m: nat, opts: Options)
    requires n <= m <= |inputs| && Sound(Run(st, [], false))
    ensures After(st, inputs, n, opts).st.order <= After(st, inputs, m, opts).st.order
    decreases m
  {
    hide Sound, Advance;
    if n < m {
      OrderGrows(st, inputs, n, m - 1, opts);
      AfterSound(st, inputs, m - 1, opts);
      AdvanceSound(After(st, inputs, m - 1, opts), inputs[m - 1], opts);
    }
  }

  /** A chunk sent for the `n`-th item under an index is about the call that
      owns the index in the end. */
  lemma {:induction false} IndexBelongsToCall(st: State, inputs: seq<Input>, n: nat, i: nat, reported: Option<Reported>, opts: Options)
    requires Sound(Run(st, [], false)) && n < |inputs|
    requires |After(st, inputs, n, opts).out| <= i < |After(st, inputs, n + 1, opts).out|
    requires var o := After(st, inputs, n + 1, opts).out[i]; o.ChunkOut? && o.chunk.delta.Tool?
    ensures var k := After(st, inputs, n + 1, opts).out[i].chunk.delta.index;
            var order := Convert(st, inputs, reported, opts).st.order;
            inputs[n].PartIn? && k < |order| && ToolId(inputs[n].part) == Some(order[k])
  {
    hide *;
    AfterSound(st, inputs, n, opts);
    AfterNext(st, inputs, n, opts);
    OrderGrows(st, inputs, n + 1, |inputs|, opts);
    ConvertSound(st, inputs, reported, opts);
    IndexOfStep(After(st, inputs, n, opts), inputs[n], i, opts);
  }

  lemma {:induction false} AfterNext(st: State, inputs: seq<Input>, n: nat, opts: Options)
    requires n < |inputs|
    ensures After(st, inputs, n + 1, opts) == Advance(After(st, inputs, n, opts), inputs[n], opts)
  {
    hide Advance;
  }

  lemma {:induction false} IndexOfStep(r: Run, input: Input, i: nat, opts: Options)
    requires Sound(r) && |r.out| <= i < |Advance(r, input, opts).out|
    requires var o := Advance(r, input, opts).out[i]; o.ChunkOut? && o.chunk.delta.Tool?
    ensures var r' := Advance(r, input, opts);
            var k := r'.out[i].chunk.delta.index;
            input.PartIn? && k < |r'.st.order| && ToolId(input.part) == Some(r'.st.order[k])
  {
    hide Framed, Frames, Opening, ProcessPart, Fail;
    match input
    case PartIn(part, known) =>
      StepTools(r.st, part, known, opts);
      IndexOfTool(r.st, part, ProcessPart(r.st, part, known, opts), i - |r.out|);
    case FatalError(message, known) => FailTools(r.st, message, known, opts);
    case RecoverableError(message) =>
  }

  lemma {:induction false} IndexOfTool(st: State, part: Part, s: Step, i: nat)
    requires Tracked(st) && Tools(st, part, s) && i < |s.chunks| && s.chunks[i].delta.Tool?
    ensures var k := s.chunks[i].delta.index; k < |s.st.order| && ToolId(part) == Some(s.st.order[k])
    ensures s.chunks[i].delta.id.Some? ==> s.chunks[i].delta.id == ToolId(part)
  {
    KeepsTracked(st, part, s);
  }

  /** The final call of an opened id extends what was streamed of it. */
  predicate Extends(st: State, id: string, arguments: string) {
    id !in st.openedIds || (id in st.toolCalls && IsPrefix(st.toolCalls[id].arguments, arguments))
  }

  predicate HasArguments(st: State, id: string, arguments: string) {
    id in st.openedIds && id in st.toolCalls && st.toolCalls[id].arguments == arguments
  }

  lemma {:induction false} FinalCallStep(st: State, id: string, name: string, arguments: string, reported: Option<Reported>, opts: Options)
    requires Tracked(st)
    ensures var s := ProcessPart(st, ToolCall(id, name, arguments), reported, opts);
            if Extends(st, id, arguments) then HasArguments(s.st, id, arguments) else s == Step(st, [])
    ensures HasArguments(st, id, arguments) ==> ProcessPart(st, ToolCall(id, name, arguments), reported, opts) == Step(st, [])
  {
    if id in st.openedIds && IsPrefix(st.toolCalls[id].arguments, arguments) {
      var a := st.toolCalls[id].arguments;
      assert a + arguments[|a|..] == arguments;
    }
    assert arguments[|arguments|..] == "";
    hide EnsureStarted;
  }

  /** After the item at `n`, the call is mentioned only by repeats of its final call. */
  ghost predicate OnlyRepeats(inputs: seq<Input>, n: nat, id: string, arguments: string) {
    forall i :: n < i < |inputs| && inputs[i].PartIn? && ToolId(inputs[i].part) == Some(id) ==>
      inputs[i].part.ToolCall? && inputs[i].part.arguments == arguments
  }

  /** What a run has recorded for a call, and sent under its index. */
  ghost predicate Sent(r: Run, id: string, index: nat, arguments: string) {
    HasArguments(r.st, id, arguments) && r.st.toolCalls[id].index == index && Fragments(r.out, index) == arguments
  }

  /** Over every run: when a final call comes that extends what was streamed of
      it, the fragments sent under its index are its arguments, then and, if
      only repeats follow, to the end of the stream; repeats send nothing. A
      final call that does not extend what was streamed sends nothing. */
  lemma {:induction false} FinalCall(st: State, inputs: seq<Input>, n: nat, reported: Option<Reported>, opts: Options)
    requires Sound(Run(st, [], false)) && n < |inputs| && !After(st, inputs, n, opts).done
    requires inputs[n].PartIn? && inputs[n].part.ToolCall?
    ensures var r, r' := After(st, inputs, n, opts), After(st, inputs, n + 1, opts);
            var id, arguments := inputs[n].part.id, inputs[n].part.arguments;
            if !Extends(r.st, id, arguments) then r' == r
            else
              && id in r'.st.toolCalls && Sent(r', id, r'.st.toolCalls[id].index, arguments)
              && (HasArguments(r.st, id, arguments) ==> r' == r)
              && (OnlyRepeats(inputs, n, id, arguments) ==>
                    Sent(Convert(st, inputs, reported, opts), id, r'.st.toolCalls[id].index, arguments))
  {
    var r, r' := After(st, inputs, n, opts), After(st, inputs, n + 1, opts);
    var part := inputs[n].part;
    AfterSound(st, inputs, n, opts);
    AfterSound(st, inputs, n + 1, opts);
    SoundState(r);
    AfterNext(st, inputs, n, opts);
    FinalCallStep(r.st, part.id, part.name, part.arguments, inputs[n].reported, opts);
    hide ProcessPart, After, Fragments, Framed, IsPrefix;
    if Extends(r.st, part.id, part.arguments) {
      FragmentsRecorded(r', part.id);
      if OnlyRepeats(inputs, n, part.id, part.arguments) {
        ArgumentsStay(st, inputs, n, |inputs|, opts);
        CloseKeepsCalls(st, inputs, reported, opts);
        ConvertSound(st, inputs, reported, opts);
        FragmentsRecorded(Convert(st, inputs, reported, opts), part.id);
      }
    }
    assert r.out + [] == r.out;
  }

  lemma {:induction false} FragmentsRecorded(r: Run, id: string)
    requires Consistent(r) && id in r.st.toolCalls
    ensures Fragments(r.out, r.st.toolCalls[id].index) == r.st.toolCalls[id].arguments
  {
  }

  lemma {:induction false} ArgumentsStay(st: State, inputs: seq<Input>, n: nat, m: nat, opts: Options)
    requires Sound(Run(st, [], false)) && n < m <= |inputs| && inputs[n].PartIn? && inputs[n].part.ToolCall?
    requires var id, arguments := inputs[n].part.id, inputs[n].part.arguments;
             HasArguments(After(st, inputs, n + 1, opts).st, id, arguments) && OnlyRepeats(inputs, n, id, arguments)
    ensures var s, s', id := After(st, inputs, n + 1, opts).st, After(st, inputs, m, opts).st, inputs[n].part.id;
            id in s'.openedIds && id in s'.toolCalls && s'.toolCalls[id] == s.toolCalls[id]
    decreases m
  {
    hide After, Sound, OnlyRepeats, Advance;
    if n + 1 < m {
      var id, arguments := inputs[n].part.id, inputs[n].part.arguments;
      ArgumentsStay(st, inputs, n, m - 1, opts);
      AfterSound(st, inputs, m - 1, opts);
      AfterNext(st, inputs, m - 1, opts);
      RepeatAt(inputs, n, m - 1, id, arguments);
      AdvanceKeepsCall(After(st, inputs, m - 1, opts), inputs[m - 1], id, arguments, opts);
    }
  }

  lemma {:induction false} RepeatAt(inputs: seq<Input>, n: nat, i: nat, id: string, arguments: string)
    requires OnlyRepeats(inputs, n, id, arguments) && n < i < |inputs|
    ensures inputs[i].PartIn? && ToolId(inputs[i].part) == Some(id) ==>
              inputs[i].part.ToolCall? && inputs[i].part.arguments == arguments
  {
  }

  /** A call with its final arguments stays as it is. */
  lemma {:induction false} AdvanceKeepsCall(r: Run, input: Input, id: string, arguments: string, opts: Options)
    requires Sound(r) && HasArguments(r.st, id, arguments)
    requires input.PartIn? && ToolId(input.part) == Some(id) ==> input.part.ToolCall? && input.part.arguments == arguments
    ensures var s := Advance(r, input, opts).st;
            id in s.openedIds && id in s.toolCalls && s.toolCalls[id] == r.st.toolCalls[id]
  {
    if !r.done {
      SoundState(r);
      hide ProcessPart, Fail, Sound;
      match input
      case PartIn(part, reported) =>
        if ToolId(part) == Some(id) {
          FinalCallStep(r.st, id, part.name, arguments, reported, opts);
        } else {
          StepTools(r.st, part, reported, opts);
        }
      case FatalError(message, reported) => FailTools(r.st, message, reported, opts);
      case RecoverableError(_) =>
    }
  }

  lemma {:induction false} CloseKeepsCalls(st: State, inputs: seq<Input>, reported: Option<Reported>, opts: Options)
    ensures var s, s' := After(st, inputs, |inputs|, opts).st, Convert(st, inputs, reported, opts).st;
            s'.toolCalls == s.toolCalls && s'.openedIds == s.openedIds
  {
    var r := After(st, inputs, |inputs|, opts);
    if !r.done { FailTools(r.st, "", reported, opts); }
    hide Close, After;
  }

  // ----- When a call keeps to one index

  ghost predicate MentionsBefore(inputs: seq<Input>, n: nat, id: string, opening: bool)
    requires n <= |inputs|
  {
    exists i :: 0 <= i < n && Mentions(inputs[i], id, opening)
  }

  /** The item is about the call; when `opening`, other than by a bare delta. */
  predicate Mentions(input: Input, id: string, opening: bool) {
    input.PartIn? && ToolId(input.part) == Some(id) && (opening ==> !input.part.ToolInputDelta?)
  }

  /** The final call of an id that so far had deltas only. */
  ghost predicate SplitsCall(inputs: seq<Input>, i: nat)
    requires i < |inputs|
  {
    inputs[i].PartIn? && inputs[i].part.ToolCall? &&
    MentionsBefore(inputs, i, inputs[i].part.id, false) && !MentionsBefore(inputs, i, inputs[i].part.id, true)
  }

  ghost predicate Distinct(order: seq<string>) { forall i, j :: 0 <= i < j < |order| ==> order[i] != order[j] }

  lemma {:induction false} MentionsNext(inputs: seq<Input>, n: nat, id: string, opening: bool)
    requires n < |inputs|
    ensures MentionsBefore(inputs, n + 1, id, opening)
       <==> MentionsBefore(inputs, n, id, opening) || Mentions(inputs[n], id, opening)
  {
  }

  /** An item that ends the stream. */
  predicate EndsStream(input: Input) { input.FatalError? || (input.PartIn? && input.part.Finish?) }

  ghost predicate IsLive(inputs: seq<Input>, n: nat)
    requires n <= |inputs|
  {
    forall i :: 0 <= i < n ==> !EndsStream(inputs[i])
  }

  lemma {:induction false} DoneWhenEnded(st: State, inputs: seq<Input>, n: nat, opts: Options)
    requires n <= |inputs|
    ensures After(st, inputs, n, opts).done <==> !IsLive(inputs, n)
  {
    hide ProcessPart, Fail;
    if n > 0 {
      DoneWhenEnded(st, inputs, n - 1, opts);
      assert IsLive(inputs, n) <==> IsLive(inputs, n - 1) && !EndsStream(inputs[n - 1]);
    }
  }

  /** For every input stream, whether or not it ends of itself: no call has two
      indices in the whole chunk stream if and only if, up to the item that
      ends it, no final call comes for an id that so far had deltas only. */
  lemma {:induction false} OneIndexPerCall(id: string, model: string, created: nat, hasIdentity: bool, inputs: seq<Input>,
                                           reported: Option<Reported>, opts: Options)
    ensures Distinct(Convert(Initial(id, model, created, hasIdentity), inputs, reported, opts).st.order) <==>
              forall i :: 0 <= i < |inputs| && IsLive(inputs, i) ==> !SplitsCall(inputs, i)
  {
    hide Convert, SplitsCall, Sound, After, Distinct;
    var st := Initial(id, model, created, hasIdentity);
    InitialSound(id, model, created, hasIdentity);
    DoneWhenEnded(st, inputs, |inputs|, opts);
    ConvertSound(st, inputs, reported, opts);
    if IsLive(inputs, |inputs|) {
      OneIndexSoFar(st, inputs, |inputs|, opts);
    } else {
      var n := FirstEnding(inputs, |inputs|);
      OneIndexToEnd(st, inputs, n, opts);
      NothingAfterEnd(inputs, n);
    }
  }

  /** Of a stream that ends at `n`. */
  lemma {:induction false} OneIndexToEnd(st: State, inputs: seq<Input>, n: nat, opts: Options)
    requires st.toolCalls == map[] && st.openedIds == {} && st.order == [] && st.nextIndex == 0
    requires Sound(Run(st, [], false)) && n < |inputs| && IsLive(inputs, n) && EndsStream(inputs[n])
    ensures Distinct(After(st, inputs, |inputs|, opts).st.order) <==> forall i :: 0 <= i < n ==> !SplitsCall(inputs, i)
  {
    hide SplitsCall, Sound, After, Distinct;
    DoneWhenEnded(st, inputs, n, opts);
    DoneWhenEnded(st, inputs, n + 1, opts);
    OneIndexSoFar(st, inputs, n, opts);
    EndKeepsOrder(st, inputs, n, opts);
    DoneStays(st, inputs, n + 1, opts);
  }

  lemma {:induction false} FirstEnding(inputs: seq<Input>, m: nat) returns (n: nat)
    requires m <= |inputs| && !IsLive(inputs, m)
    ensures n < m && IsLive(inputs, n) && EndsStream(inputs[n])
  {
    if IsLive(inputs, m - 1) { n := m - 1; } else { n := FirstEnding(inputs, m - 1); }
  }

  lemma {:induction false} NothingAfterEnd(inputs: seq<Input>, n: nat)
    requires n < |inputs| && IsLive(inputs, n) && EndsStream(inputs[n])
    ensures !SplitsCall(inputs, n)
    ensures forall i :: 0 <= i < |inputs| ==> (IsLive(inputs, i) <==> i <= n)
  {
  }

  lemma {:induction false} EndKeepsOrder(st: State, inputs: seq<Input>, n: nat, opts: Options)
    requires Sound(Run(st, [], false)) && n < |inputs| && EndsStream(inputs[n]) && !After(st, inputs, n, opts).done
    ensures After(st, inputs, n + 1, opts).st.order == After(st, inputs, n, opts).st.order
  {
    var r := After(st, inputs, n, opts);
    AfterSound(st, inputs, n, opts);
    SoundState(r);
    AfterNext(st, inputs, n, opts);
    hide ProcessPart, Fail, Sound, After;
    match inputs[n]
    case PartIn(part, known) => StepTools(r.st, part, known, opts);
    case FatalError(message, known) => FailTools(r.st, message, known, opts);
  }

  /** While the stream has not ended. */
  lemma {:induction false} OneIndexSoFar(st: State, inputs: seq<Input>, n: nat, opts: Options)
    requires st.toolCalls == map[] && st.openedIds == {} && st.order == [] && st.nextIndex == 0
    requires n <= |inputs| && Sound(Run(st, [], false)) && !After(st, inputs, n, opts).done
    ensures var st' := After(st, inputs, n, opts).st;
            && (Distinct(st'.order) <==> forall i :: 0 <= i < n ==> !SplitsCall(inputs, i))
            && (forall id :: id in st'.toolCalls <==> MentionsBefore(inputs, n, id, false))
            && (forall id :: id in st'.openedIds <==> MentionsBefore(inputs, n, id, true))
  {
    hide Sound, ProcessPart, Fail, MentionsBefore;
    if n == 0 {
      assert forall id, b :: !MentionsBefore(inputs, 0, id, b) by { NothingMentioned(inputs); }
    } else {
      var r := After(st, inputs, n - 1, opts);
      OneIndexSoFar(st, inputs, n - 1, opts);
      AfterSound(st, inputs, n - 1, opts);
      forall id, b ensures MentionsBefore(inputs, n, id, b)
                      <==> MentionsBefore(inputs, n - 1, id, b) || Mentions(inputs[n - 1], id, b)
      {
        MentionsNext(inputs, n - 1, id, b);
      }
      if inputs[n - 1].PartIn? {
        SoundState(r);
        StepTools(r.st, inputs[n - 1].part, inputs[n - 1].reported, opts);
        StepOrder(r.st, inputs[n - 1].part, ProcessPart(r.st, inputs[n - 1].part, inputs[n - 1].reported, opts));
        var part := inputs[n - 1].part;
        assert SplitsCall(inputs, n - 1)
          <==> part.ToolCall? && part.id in r.st.toolCalls && part.id !in r.st.openedIds;
        assert After(st, inputs, n, opts).st == ProcessPart(r.st, part, inputs[n - 1].reported, opts).st;
      }
    }
  }

  lemma {:induction false} NothingMentioned(inputs: seq<Input>)
    ensures forall id, b :: !MentionsBefore(inputs, 0, id, b)
  {
  }

  lemma {:induction false} StepOrder(st: State, part: Part, s: Step)
    requires Tracked(st) && Tools(st, part, s)
    ensures forall id :: id in s.st.toolCalls <==> id in st.toolCalls || (ToolId(part) == Some(id))
    ensures forall id :: id in s.st.openedIds <==> id in st.openedIds || (ToolId(part) == Some(id) && !part.ToolInputDelta?)
    ensures Distinct(s.st.order) <==>
              Distinct(st.order) && !(part.ToolCall? && part.id in st.toolCalls && part.id !in st.openedIds)
  {
    if s.st.order != st.order {
      var id := ToolId(part).value;
      DistinctSnoc(st.order, id);
      if id in st.toolCalls { assert id == st.order[st.toolCalls[id].index]; }
      if id in st.order {
        var k :| 0 <= k < |st.order| && st.order[k] == id;
      }
    }
  }

  lemma {:induction false} DistinctSnoc(order: seq<string>, id: string)
    ensures Distinct(order + [id]) <==> Distinct(order) && id !in order
  {
    var more := order + [id];
    assert forall i :: 0 <= i < |order| ==> more[i] == order[i];
    if Distinct(more) {
      forall i | 0 <= i < |order| ensures order[i] != id { assert more[i] != more[|order|]; }
    }
  }

  /** A delta of a call that never started, and then the final call. */
  lemma {:induction false} SplitCallTakesTwoIndices(opts: Options)
    ensures var inputs := [PartIn(ToolInputDelta("x", "{"), None), PartIn(ToolCall("x", "f", "{}"), None)];
            var st := Initial("id", "model", 0, false);
            Convert(st, inputs, None, opts).st.order == ["x", "x"]
  {
    var inputs := [PartIn(ToolInputDelta("x", "{"), None), PartIn(ToolCall("x", "f", "{}"), None)];
    var st := Initial("id", "model", 0, false);
    var r0, r1, r2 := After(st, inputs, 0, opts), After(st, inputs, 1, opts), After(st, inputs, 2, opts);
    assert r0.st.order == [] && !r0.done;
    assert r1 == Advance(r0, inputs[0], opts) && r1.st.order == ["x"] && !r1.done;
    assert r2 == Advance(r1, inputs[1], opts) && r2.st.order == ["x", "x"] && !r2.done;
    CloseKeepsOrder(r2.st, None, opts);
  }
}
