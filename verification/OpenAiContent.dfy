/**
 What a chunk stream says, by the places of the items alone: the text, reasoning
 and calls of the items in order, the finish reason and usage, and the identity.
 */
module OpenAiContent {
  import opened Wrappers
  import opened OpenAiChunks
  import Proofs = OpenAiProofs

  // ----- What an output says

  /** A chunk with its index and identity left aside. */
  datatype Saying =
    | Text(text: string)
    | Thought(text: string)
    | Call(id: Option<string>, name: Option<string>, arguments: string)
    | Problem(message: string)

  /** Role frames and the finish chunk say nothing. */
  function SaidBy(o: Output): seq<Saying> {
    match o
    case ErrorOut(message) => [Problem(message)]
    case ChunkOut(chunk) =>
      match chunk.delta
      case Role => []
      case Empty => []
      case Content(text) => [Text(text)]
      case Reasoning(text) => [Thought(text)]
      case Tool(_, id, name, arguments) => [Call(id, name, arguments)]
  }

  function Said(out: seq<Output>): seq<Saying> {
    if out == [] then [] else Said(out[..|out| - 1]) + SaidBy(out[|out| - 1])
  }

  // ----- What the items are to say

  /** A call of the id was opened: its input started, or it came whole. */
  ghost predicate IsOpened(inputs: seq<Input>, n: nat, id: string)
    requires n <= |inputs|
  {
    Proofs.MentionsBefore(inputs, n, id, true)
  }

  /** The arguments sent for an id: its deltas, up to a call of it, which has all. */
  ghost function Streamed(inputs: seq<Input>, n: nat, id: string): string
    requires n <= |inputs|
  {
    if n == 0 then ""
    else
      var before := Streamed(inputs, n - 1, id);
      match inputs[n - 1]
      case PartIn(ToolInputDelta(other, delta), _) => if other == id then before + delta else before
      case PartIn(ToolCall(other, _, arguments), _) =>
        if other == id && (before <= arguments || !IsOpened(inputs, n - 1, id)) then arguments else before
      case _ => before
  }

  ghost function Expected(inputs: seq<Input>, k: nat, opts: Options): seq<Saying>
    requires k < |inputs|
  {
    match inputs[k]
    case RecoverableError(message) => [Problem(message)]
    case FatalError(message, _) => [Text("[error] " + message)]
    case PartIn(part, _) =>
      match part
      case TextDelta(text) => [Text(text)]
      case ReasoningDelta(text) => if opts.includeReasoning then [Thought(text)] else []
      case ToolInputStart(id, name) => [Call(Some(id), Some(name), "")]
      case ToolInputDelta(_, delta) => [Call(None, None, delta)]
      case ToolCall(id, name, arguments) =>
        var sent := Streamed(inputs, k, id);
        if !IsOpened(inputs, k, id) then [Call(Some(id), Some(name), arguments)]
        else if sent < arguments then [Call(None, None, arguments[|sent|..])]
        else []
      case ToolResult(name, text) => [Text("[tool result: " + name + "] " + text)]
      case ProviderToolError(name, text) => [Text("[tool error: " + name + "] " + text)]
      case File(mediaType, base64) => [Text("data:" + mediaType + ";base64," + base64)]
      case SourceUrl(url) => if url == "" then [] else [Text(url)]
      case Error(message) => [Text("[error] " + message)]
      case _ => []
  }

  ghost function ExpectedUpTo(inputs: seq<Input>, n: nat, opts: Options): seq<Saying>
    requires n <= |inputs|
  {
    if n == 0 then [] else ExpectedUpTo(inputs, n - 1, opts) + Expected(inputs, n - 1, opts)
  }

  /** The item that ends the stream, or the end of the items. */
  ghost predicate IsEnd(inputs: seq<Input>, m: nat) {
    m <= |inputs| && Proofs.IsLive(inputs, m) && (m < |inputs| ==> Proofs.EndsStream(inputs[m]))
  }

  // ----- One item

  lemma {:induction false} SaidAppend(out: seq<Output>, more: seq<Output>)
    ensures Said(out + more) == Said(out) + Said(more)
  {
    if more == [] {
      assert out + more == out;
    } else {
      assert (out + more)[..|out + more| - 1] == out + more[..|more| - 1];
      SaidAppend(out, more[..|more| - 1]);
    }
  }

  function SaidIn(s: Step): seq<Saying> { Said(Outputs(s.chunks)) }

  lemma {:induction false} SaidInThen(chunks: seq<Chunk>, more: seq<Chunk>)
    ensures Said(Outputs(chunks + more)) == Said(Outputs(chunks)) + Said(Outputs(more))
  {
    assert Outputs(chunks + more) == Outputs(chunks) + Outputs(more);
    SaidAppend(Outputs(chunks), Outputs(more));
  }

  lemma {:induction false} SaidOfOne(c: Chunk)
    ensures Said(Outputs([c])) == SaidBy(ChunkOut(c)) && Said(Outputs([])) == []
  {
    assert Outputs([c])[..0] == [];
  }

  lemma {:induction false} SaidBySend(s: Step, delta: Delta)
    ensures SaidIn(Send(s, delta)) == SaidIn(s) + SaidBy(ChunkOut(BaseChunk(s.st, delta)))
  {
    SaidInThen(s.chunks, [BaseChunk(s.st, delta)]);
    SaidOfOne(BaseChunk(s.st, delta));
  }

  /** The tool calls and the ending are left alone. */
  ghost predicate IsAside(st: State, st': State) {
    && st'.toolCalls == st.toolCalls && st'.openedIds == st.openedIds && st'.finishEmitted == st.finishEmitted
    && st'.usage == st.usage && st'.finish == st.finish
  }

  lemma {:induction false} BeginSays(st: State, reported: Option<Reported>)
    ensures SaidIn(EnsureStarted(st, reported)) == [] && SaidIn(PendingStart(st, reported)) == []
    ensures IsAside(st, EnsureStarted(st, reported).st) && IsAside(st, PendingStart(st, reported).st)
  {
    var s := EnsureStarted(st, reported);
    if s.chunks != [] { SaidOfOne(s.chunks[0]); } else { SaidOfOne(BaseChunk(st, Role)); }
    SaidOfOne(BaseChunk(st, Role));
  }

  lemma {:induction false} ErrorSays(st: State, message: string)
    requires !st.finishEmitted
    ensures SaidIn(ErrorChunk(st, message)) == [Text("[error] " + message)] && IsAside(st, ErrorChunk(st, message).st)
  {
    SaidOfOne(ErrorChunk(st, message).chunks[0]);
  }

  /** The finish chunk: the reason and usage known by then. */
  lemma {:induction false} FinalSays(st: State, opts: Options)
    requires !st.finishEmitted
    ensures SaidIn(FinalChunk(st, opts)) == [] && |FinalChunk(st, opts).chunks| == 1
    ensures EndsWith(FinalChunk(st, opts).chunks, st.finish, st.usage, opts)
  {
    SaidOfOne(FinalChunk(st, opts).chunks[0]);
  }

  /** The text of a finish reason: `other` keeps the provider's own word. */
  predicate IsReasonText(reason: FinishReason, raw: Option<string>, text: string) {
    && (reason.Length? ==> text == "length") && (reason.ContentFilter? ==> text == "content_filter")
    && (reason.ToolCalls? ==> text == "tool_calls") && (reason.Stop? || reason.Failed? ==> text == "stop")
    && (reason.Other? ==> text == if raw.Some? then raw.value else "stop")
  }

  predicate EndsWith(chunks: seq<Chunk>, finish: Option<(FinishReason, Option<string>)>, usage: Option<Usage>, opts: Options) {
    && chunks != [] && chunks[|chunks| - 1].delta.Empty? && chunks[|chunks| - 1].finishReason.Some?
    && (if finish.Some? then IsReasonText(finish.value.0, finish.value.1, chunks[|chunks| - 1].finishReason.value)
        else chunks[|chunks| - 1].finishReason.value == "stop")
    && chunks[|chunks| - 1].usage == if opts.includeUsage then usage else None
  }

  // ----- The state keeps what was read

  ghost predicate Keeps(st: State, inputs: seq<Input>, n: nat)
    requires n <= |inputs|
  {
    && (forall id :: id in st.openedIds <==> IsOpened(inputs, n, id))
    && (forall id :: SentFor(st, id) == Streamed(inputs, n, id))
    && (forall id :: id in st.openedIds ==> id in st.toolCalls)
    && !st.finishEmitted && st.usage.None? && st.finish.None?
  }

  function SentFor(st: State, id: string): string { if id in st.toolCalls then st.toolCalls[id].arguments else "" }

  /** An item that is not about a call. */
  lemma {:induction false} AsideKeeps(st: State, st': State, inputs: seq<Input>, n: nat)
    requires n < |inputs| && Keeps(st, inputs, n) && IsAside(st, st')
    requires inputs[n].PartIn? ==> Proofs.ToolId(inputs[n].part).None?
    ensures Keeps(st', inputs, n + 1)
  {
    forall id
      ensures (id in st'.openedIds <==> IsOpened(inputs, n + 1, id)) && SentFor(st', id) == Streamed(inputs, n + 1, id)
    {
      Proofs.MentionsNext(inputs, n, id, true);
      assert id in st.openedIds <==> IsOpened(inputs, n, id);
      assert SentFor(st, id) == Streamed(inputs, n, id);
    }
  }

  lemma {:induction false} SaySays(st: State, reported: Option<Reported>, delta: Delta)
    ensures SaidIn(Send(EnsureStarted(st, reported), delta)) == SaidBy(ChunkOut(BaseChunk(st, delta)))
    ensures IsAside(st, Send(EnsureStarted(st, reported), delta).st)
  {
    BeginSays(st, reported);
    SaidBySend(EnsureStarted(st, reported), delta);
    hide EnsureStarted, SaidIn;
  }

  lemma {:induction false} PartSays(st: State, inputs: seq<Input>, n: nat, opts: Options)
    requires n < |inputs| && inputs[n].PartIn?
    requires Proofs.ToolId(inputs[n].part).None? && !inputs[n].part.Finish? && !inputs[n].part.Error?
    ensures var s := ProcessPart(st, inputs[n].part, inputs[n].reported, opts);
            IsAside(st, s.st) && SaidIn(s) == Expected(inputs, n, opts)
  {
    hide *;
    var part, reported := inputs[n].part, inputs[n].reported;
    var s := ProcessPart(st, part, reported, opts);
    BeginSays(st, reported);
    NothingSays(st);
    if SpokenBy(part).Some? && (part.ReasoningDelta? ==> opts.includeReasoning) && (part.SourceUrl? ==> part.url != "") {
      SpokenIsSent(st, part, reported, opts);
      SaySays(st, reported, SpokenBy(part).value);
      SpokenIsExpected(st, inputs, n, opts);
    } else {
      OtherIsQuiet(st, inputs, n, opts);
    }
  }

  lemma {:induction false} NothingSays(st: State)
    ensures SaidIn(Step(st, [])) == [] && IsAside(st, st)
  {
    SaidOfOne(BaseChunk(st, Role));
  }

  /** The delta of a part that says something. */
  function SpokenBy(part: Part): Option<Delta> {
    match part
    case TextDelta(text) => Some(Content(text))
    case ReasoningDelta(text) => Some(Reasoning(text))
    case ToolResult(name, text) => Some(Content("[tool result: " + name + "] " + text))
    case ProviderToolError(name, text) => Some(Content("[tool error: " + name + "] " + text))
    case File(mediaType, base64) => Some(Content("data:" + mediaType + ";base64," + base64))
    case SourceUrl(url) => Some(Content(url))
    case _ => None
  }

  lemma {:induction false} SpokenIsSent(st: State, part: Part, reported: Option<Reported>, opts: Options)
    requires SpokenBy(part).Some? && (part.ReasoningDelta? ==> opts.includeReasoning) && (part.SourceUrl? ==> part.url != "")
    ensures ProcessPart(st, part, reported, opts) == Send(EnsureStarted(st, reported), SpokenBy(part).value)
  {
    hide EnsureStarted, Send;
  }

  lemma {:induction false} SpokenIsExpected(st: State, inputs: seq<Input>, n: nat, opts: Options)
    requires n < |inputs| && inputs[n].PartIn?
    requires var part := inputs[n].part;
             SpokenBy(part).Some? && (part.ReasoningDelta? ==> opts.includeReasoning) && (part.SourceUrl? ==> part.url != "")
    ensures SaidBy(ChunkOut(BaseChunk(st, SpokenBy(inputs[n].part).value))) == Expected(inputs, n, opts)
  {
    hide Streamed, IsOpened;
  }

  lemma {:induction false} OtherIsQuiet(st: State, inputs: seq<Input>, n: nat, opts: Options)
    requires n < |inputs| && inputs[n].PartIn?
    requires var part := inputs[n].part;
             && Proofs.ToolId(part).None? && !part.Finish? && !part.Error?
             && ((part.ReasoningDelta? && !opts.includeReasoning) || (part.SourceUrl? && part.url == "") || SpokenBy(part).None?)
    ensures var s := ProcessPart(st, inputs[n].part, inputs[n].reported, opts);
            IsAside(st, s.st) && SaidIn(s) == Expected(inputs, n, opts)
  {
    BeginSays(st, inputs[n].reported);
    NothingSays(st);
    hide EnsureStarted, Said, Outputs, Streamed, IsOpened;
    var part := inputs[n].part;
    if part.Start? || part.FinishStep? {
      assert SaidIn(Step(ProcessPart(st, part, inputs[n].reported, opts).st, [])) == SaidIn(Step(st, []));
    }
  }

  /** The tool calls of the state are those read, with the item at `n`. */
  lemma {:induction false} CallKeeps(st: State, st': State, inputs: seq<Input>, n: nat)
    requires n < |inputs| && Keeps(st, inputs, n) && inputs[n].PartIn? && Proofs.ToolId(inputs[n].part).Some?
    requires var id := Proofs.ToolId(inputs[n].part).value;
             && st'.finishEmitted == st.finishEmitted && st'.usage == st.usage && st'.finish == st.finish
             && (st'.openedIds == if inputs[n].part.ToolInputDelta? then st.openedIds else st.openedIds + {id})
             && id in st'.toolCalls && st'.toolCalls == st.toolCalls[id := st'.toolCalls[id]]
             && st'.toolCalls[id].arguments == Streamed(inputs, n + 1, id)
    ensures Keeps(st', inputs, n + 1)
  {
    var call := Proofs.ToolId(inputs[n].part).value;
    forall id
      ensures (id in st'.openedIds <==> IsOpened(inputs, n + 1, id)) && SentFor(st', id) == Streamed(inputs, n + 1, id)
    {
      Proofs.MentionsNext(inputs, n, id, true);
      assert id in st.openedIds <==> IsOpened(inputs, n, id);
      assert SentFor(st, id) == Streamed(inputs, n, id);
      if id != call { assert Streamed(inputs, n + 1, id) == Streamed(inputs, n, id); }
    }
  }

  lemma {:induction false} StartStep(begun: Step, id: string, name: string)
    ensures var s, st := InputStart(begun, id, name), begun.st;
            && SaidIn(s) == SaidIn(begun) + [Call(Some(id), Some(name), "")]
            && s.st.finishEmitted == st.finishEmitted && s.st.usage == st.usage && s.st.finish == st.finish
            && s.st.openedIds == st.openedIds + {id} && id in s.st.toolCalls
            && s.st.toolCalls == st.toolCalls[id := s.st.toolCalls[id]] && s.st.toolCalls[id].arguments == SentFor(st, id)
  {
    var s := InputStart(begun, id, name);
    SaidBySend(Step(s.st, begun.chunks), Tool(s.st.toolCalls[id].index, Some(id), Some(name), ""));
    hide Outputs, Said;
  }

  lemma {:induction false} StartSays(st: State, inputs: seq<Input>, n: nat, opts: Options)
    requires n < |inputs| && Keeps(st, inputs, n) && inputs[n].PartIn? && inputs[n].part.ToolInputStart?
    ensures var s := ProcessPart(st, inputs[n].part, inputs[n].reported, opts);
            Keeps(s.st, inputs, n + 1) && SaidIn(s) == Expected(inputs, n, opts)
  {
    var id, name := inputs[n].part.id, inputs[n].part.name;
    var begun := EnsureStarted(st, inputs[n].reported);
    var s := ProcessPart(st, inputs[n].part, inputs[n].reported, opts);
    assert SentFor(begun.st, id) == SentFor(st, id) == Streamed(inputs, n, id) == Streamed(inputs, n + 1, id);
    BeginSays(st, inputs[n].reported);
    StartStep(begun, id, name);
    hide EnsureStarted, Keeps, Streamed, IsOpened, SaidIn, InputStart;
    CallKeeps(st, s.st, inputs, n);
  }

  lemma {:induction false} DeltaStep(begun: Step, id: string, delta: string)
    ensures var s, st := InputDelta(begun, id, delta), begun.st;
            && SaidIn(s) == SaidIn(begun) + [Call(None, None, delta)]
            && s.st.finishEmitted == st.finishEmitted && s.st.usage == st.usage && s.st.finish == st.finish
            && s.st.openedIds == st.openedIds && id in s.st.toolCalls
            && s.st.toolCalls == st.toolCalls[id := s.st.toolCalls[id]]
            && s.st.toolCalls[id].arguments == SentFor(st, id) + delta
  {
    var s := InputDelta(begun, id, delta);
    assert "" + delta == delta;
    SaidBySend(Step(s.st, begun.chunks), Tool(s.st.toolCalls[id].index, None, None, delta));
    hide Outputs, Said;
  }

  lemma {:induction false} DeltaSays(st: State, inputs: seq<Input>, n: nat, opts: Options)
    requires n < |inputs| && Keeps(st, inputs, n) && inputs[n].PartIn? && inputs[n].part.ToolInputDelta?
    ensures var s := ProcessPart(st, inputs[n].part, inputs[n].reported, opts);
            Keeps(s.st, inputs, n + 1) && SaidIn(s) == Expected(inputs, n, opts)
  {
    var id, delta := inputs[n].part.id, inputs[n].part.delta;
    var begun := EnsureStarted(st, inputs[n].reported);
    var s := ProcessPart(st, inputs[n].part, inputs[n].reported, opts);
    assert SentFor(begun.st, id) == SentFor(st, id) == Streamed(inputs, n, id);
    assert Streamed(inputs, n + 1, id) == Streamed(inputs, n, id) + delta;
    BeginSays(st, inputs[n].reported);
    DeltaStep(begun, id, delta);
    hide EnsureStarted, Keeps, Streamed, IsOpened, SaidIn, InputDelta;
    CallKeeps(st, s.st, inputs, n);
  }

  lemma {:induction false} WholeStep(begun: Step, id: string, name: string, arguments: string)
    ensures var s, st := WholeCall(begun, id, name, arguments), begun.st;
            && SaidIn(s) == SaidIn(begun) + [Call(Some(id), Some(name), arguments)]
            && s.st.finishEmitted == st.finishEmitted && s.st.usage == st.usage && s.st.finish == st.finish
            && s.st.openedIds == st.openedIds + {id} && id in s.st.toolCalls
            && s.st.toolCalls == st.toolCalls[id := s.st.toolCalls[id]] && s.st.toolCalls[id].arguments == arguments
  {
    var s := WholeCall(begun, id, name, arguments);
    SaidBySend(Step(s.st, begun.chunks), Tool(begun.st.nextIndex, Some(id), Some(name), arguments));
    hide Outputs, Said;
  }

  lemma {:induction false} WholeSays(st: State, inputs: seq<Input>, n: nat, opts: Options)
    requires n < |inputs| && Keeps(st, inputs, n) && inputs[n].PartIn? && inputs[n].part.ToolCall?
    requires inputs[n].part.id !in st.openedIds
    ensures var s := ProcessPart(st, inputs[n].part, inputs[n].reported, opts);
            Keeps(s.st, inputs, n + 1) && SaidIn(s) == Expected(inputs, n, opts)
  {
    var id, name, arguments := inputs[n].part.id, inputs[n].part.name, inputs[n].part.arguments;
    var begun := EnsureStarted(st, inputs[n].reported);
    var s := ProcessPart(st, inputs[n].part, inputs[n].reported, opts);
    assert !IsOpened(inputs, n, id);
    assert Streamed(inputs, n + 1, id) == arguments;
    BeginSays(st, inputs[n].reported);
    WholeStep(begun, id, name, arguments);
    hide EnsureStarted, Keeps, Streamed, IsOpened, SaidIn, WholeCall;
    CallKeeps(st, s.st, inputs, n);
  }

  lemma {:induction false} BackFillSays(st: State, inputs: seq<Input>, n: nat, opts: Options)
    requires n < |inputs| && Keeps(st, inputs, n) && inputs[n].PartIn? && inputs[n].part.ToolCall?
    requires inputs[n].part.id in st.openedIds
    ensures var s := ProcessPart(st, inputs[n].part, inputs[n].reported, opts);
            Keeps(s.st, inputs, n + 1) && SaidIn(s) == Expected(inputs, n, opts)
  {
    var id, arguments := inputs[n].part.id, inputs[n].part.arguments;
    var s := ProcessPart(st, inputs[n].part, inputs[n].reported, opts);
    assert IsOpened(inputs, n, id);
    var sent := SentFor(st, id);
    assert id in st.toolCalls && sent == Streamed(inputs, n, id) == st.toolCalls[id].arguments;
    assert IsPrefix(sent, arguments) <==> sent <= arguments;
    assert st.openedIds + {id} == st.openedIds;
    if sent <= arguments { assert sent + arguments[|sent|..] == arguments; }
    if sent < arguments {
      SaidBySend(Step(s.st, []), Tool(st.toolCalls[id].index, None, None, arguments[|sent|..]));
    }
    SaidOfOne(BaseChunk(st, Role));
    assert s.st.toolCalls[id].arguments == Streamed(inputs, n + 1, id);
    hide Keeps, Streamed, IsOpened, Outputs;
    CallKeeps(st, s.st, inputs, n);
  }

  lemma {:induction false} PartAdds(st: State, inputs: seq<Input>, n: nat, opts: Options)
    requires n < |inputs| && Keeps(st, inputs, n) && inputs[n].PartIn? && !inputs[n].part.Finish?
    ensures var s := ProcessPart(st, inputs[n].part, inputs[n].reported, opts);
            Keeps(s.st, inputs, n + 1) && SaidIn(s) == Expected(inputs, n, opts)
  {
    var part, reported := inputs[n].part, inputs[n].reported;
    var s := ProcessPart(st, part, reported, opts);
    hide *;
    hide ProcessPart;
    if part.ToolInputStart? {
      StartSays(st, inputs, n, opts);
    } else if part.ToolInputDelta? {
      DeltaSays(st, inputs, n, opts);
    } else if part.ToolCall? {
      if part.id in st.openedIds { BackFillSays(st, inputs, n, opts); } else { WholeSays(st, inputs, n, opts); }
    } else {
      OtherHasNoId(part);
      if part.Error? {
        ErrorPartAdds(st, inputs, n, opts);
      } else {
        PartSays(st, inputs, n, opts);
      }
      AsideKeeps(st, s.st, inputs, n);
    }
  }

  lemma {:induction false} OtherHasNoId(part: Part)
    requires !part.ToolInputStart? && !part.ToolInputDelta? && !part.ToolCall?
    ensures Proofs.ToolId(part).None?
  {
  }

  lemma {:induction false} ErrorPartAdds(st: State, inputs: seq<Input>, n: nat, opts: Options)
    requires n < |inputs| && Keeps(st, inputs, n) && inputs[n].PartIn? && inputs[n].part.Error?
    ensures var s := ProcessPart(st, inputs[n].part, inputs[n].reported, opts);
            IsAside(st, s.st) && SaidIn(s) == Expected(inputs, n, opts)
  {
    ErrorPartSays(st, inputs[n].part.message, inputs[n].reported, opts);
    hide ProcessPart, Keeps, SaidIn, Streamed, IsOpened;
  }

  lemma {:induction false} ItemSays(r: Run, inputs: seq<Input>, n: nat, opts: Options)
    requires n < |inputs| && Keeps(r.st, inputs, n) && !r.done && !Proofs.EndsStream(inputs[n])
    ensures var r' := Advance(r, inputs[n], opts);
            Keeps(r'.st, inputs, n + 1) && !r'.done && Said(r'.out) == Said(r.out) + Expected(inputs, n, opts)
  {
    hide Said, ProcessPart, Keeps, Fail, Streamed, IsOpened, Outputs;
    match inputs[n]
    case RecoverableError(message) =>
      NothingSays(r.st);
      AsideKeeps(r.st, r.st, inputs, n);
      SaidAppend(r.out, [ErrorOut(message)]);
      SaidOfError(message);
    case PartIn(part, reported) =>
      PartAdds(r.st, inputs, n, opts);
      SaidAppend(r.out, Outputs(ProcessPart(r.st, part, reported, opts).chunks));
  }

  lemma {:induction false} SaidOfError(message: string)
    ensures Said([ErrorOut(message)]) == [Problem(message)]
  {
    assert [ErrorOut(message)][..0] == [];
  }

  lemma {:induction false} ErrorPartSays(st: State, message: string, reported: Option<Reported>, opts: Options)
    requires !st.finishEmitted
    ensures var s := ProcessPart(st, Error(message), reported, opts);
            IsAside(st, s.st) && SaidIn(s) == [Text("[error] " + message)]
  {
    BeginSays(st, reported);
    var s := PendingStart(st, reported);
    ErrorSays(s.st, message);
    SaidInThen(s.chunks, ErrorChunk(s.st, message).chunks);
    hide PendingStart, ErrorChunk;
  }

  // ----- The whole stream

  lemma {:induction false} RunSays(st: State, inputs: seq<Input>, n: nat, opts: Options)
    requires n <= |inputs| && Proofs.IsLive(inputs, n) && Keeps(st, inputs, 0)
    ensures var r := After(st, inputs, n, opts);
            Keeps(r.st, inputs, n) && !r.done && Said(r.out) == ExpectedUpTo(inputs, n, opts)
  {
    hide Advance, Keeps, Expected, Said;
    if n == 0 {
      NothingSays(st);
      assert Outputs([]) == [];
      assert SaidIn(Step(st, [])) == Said([]);
    } else {
      assert Proofs.IsLive(inputs, n - 1) && !Proofs.EndsStream(inputs[n - 1]);
      hide Proofs.IsLive;
      RunSays(st, inputs, n - 1, opts);
      ItemSays(After(st, inputs, n - 1, opts), inputs, n - 1, opts);
    }
  }

  /** The step that ends the stream: what is still said, and the finish chunk. */
  lemma {:induction false} EndingSays(st: State, message: Option<string>, reported: Option<Reported>, opts: Options)
    requires !st.finishEmitted
    ensures var s := if message.Some? then Fail(st, message.value, reported, opts) else Close(st, reported, opts);
            && SaidIn(s) == (if message.Some? then [Text("[error] " + message.value)] else [])
            && EndsWith(s.chunks, st.finish, st.usage, opts)
  {
    BeginSays(st, reported);
    var s := PendingStart(st, reported);
    var e := if message.Some? then ErrorChunk(s.st, message.value) else Step(s.st, []);
    if message.Some? { ErrorSays(s.st, message.value); }
    SaidOfOne(BaseChunk(st, Role));
    FinalSays(e.st, opts);
    var f := FinalChunk(e.st, opts);
    SaidInThen(s.chunks, e.chunks);
    SaidInThen(s.chunks + e.chunks, f.chunks);
    assert s.chunks + [] == s.chunks;
    hide PendingStart, ErrorChunk, FinalChunk, Outputs, IsReasonText;
  }

  lemma {:induction false} FinishSays(st: State, reason: FinishReason, raw: Option<string>, usage: Usage,
                                      reported: Option<Reported>, opts: Options)
    requires !st.finishEmitted
    ensures var s := ProcessPart(st, Finish(reason, raw, usage), reported, opts);
            SaidIn(s) == [] && EndsWith(s.chunks, Some((reason, raw)), Some(usage), opts)
  {
    EndingSays(st.(usage := Some(usage), finish := Some((reason, raw))), None, reported, opts);
    hide PendingStart, FinalChunk, Outputs, EndsWith;
  }

  /** The last output is a finish chunk with this reason and usage. */
  ghost predicate Ends(out: seq<Output>, finish: Option<(FinishReason, Option<string>)>, usage: Option<Usage>, opts: Options) {
    && out != [] && out[|out| - 1].ChunkOut? && EndsWith([out[|out| - 1].chunk], finish, usage, opts)
  }

  lemma {:induction false} EmitEnds(r: Run, s: Step, finish: Option<(FinishReason, Option<string>)>, usage: Option<Usage>,
                                    opts: Options)
    requires EndsWith(s.chunks, finish, usage, opts)
    ensures Ends(Emit(r, s, true).out, finish, usage, opts)
    ensures Said(Emit(r, s, true).out) == Said(r.out) + SaidIn(s)
  {
    SaidAppend(r.out, Outputs(s.chunks));
    hide IsReasonText;
  }

  // ----- Only the finish chunk has a reason or usage

  predicate IsPlain(c: Chunk) { !c.delta.Empty? ==> c.finishReason.None? && c.usage.None? }

  predicate ArePlain(chunks: seq<Chunk>) { forall i :: 0 <= i < |chunks| ==> IsPlain(chunks[i]) }

  predicate OnlyFinishEnds(out: seq<Output>) { forall i :: 0 <= i < |out| && out[i].ChunkOut? ==> IsPlain(out[i].chunk) }

  lemma {:induction false} PiecesArePlain(st: State, message: string, reported: Option<Reported>, opts: Options)
    ensures ArePlain(EnsureStarted(st, reported).chunks) && ArePlain(PendingStart(st, reported).chunks)
    ensures ArePlain(ErrorChunk(st, message).chunks) && ArePlain(FinalChunk(st, opts).chunks)
  {
  }

  lemma {:induction false} PartIsPlain(st: State, part: Part, reported: Option<Reported>, opts: Options)
    ensures ArePlain(ProcessPart(st, part, reported, opts).chunks)
  {
    PiecesArePlain(st, "", reported, opts);
    match part {
    case Finish(reason, raw, usage) =>
      EndIsPlain(st.(usage := Some(usage), finish := Some((reason, raw))), "", reported, opts);
    case Error(message) => EndIsPlain(st, message, reported, opts);
    case _ =>
    }
    hide EnsureStarted, PendingStart, ErrorChunk, FinalChunk, IsPrefix;
  }

  lemma {:induction false} EndIsPlain(st: State, message: string, reported: Option<Reported>, opts: Options)
    ensures ArePlain(Fail(st, message, reported, opts).chunks) && ArePlain(Close(st, reported, opts).chunks)
    ensures var s := PendingStart(st, reported); ArePlain(s.chunks + ErrorChunk(s.st, message).chunks)
  {
    PiecesArePlain(st, message, reported, opts);
    var s := PendingStart(st, reported);
    PiecesArePlain(s.st, message, reported, opts);
    PiecesArePlain(ErrorChunk(s.st, message).st, message, reported, opts);
    hide PendingStart, ErrorChunk, FinalChunk, IsPlain;
  }

  lemma {:induction false} EmitIsPlain(r: Run, s: Step, done: bool)
    requires OnlyFinishEnds(r.out) && ArePlain(s.chunks)
    ensures OnlyFinishEnds(Emit(r, s, done).out)
  {
    hide IsPlain;
  }

  lemma {:induction false} RunIsPlain(st: State, inputs: seq<Input>, n: nat, opts: Options)
    requires n <= |inputs|
    ensures OnlyFinishEnds(After(st, inputs, n, opts).out)
  {
    hide ProcessPart, Fail, Emit, IsPlain;
    if n > 0 {
      RunIsPlain(st, inputs, n - 1, opts);
      var r := After(st, inputs, n - 1, opts);
      match inputs[n - 1]
      case RecoverableError(_) =>
      case PartIn(part, reported) =>
        PartIsPlain(r.st, part, reported, opts);
        EmitIsPlain(r, ProcessPart(r.st, part, reported, opts), part.Finish?);
      case FatalError(message, reported) =>
        EndIsPlain(r.st, message, reported, opts);
        EmitIsPlain(r, Fail(r.st, message, reported, opts), true);
    }
  }

  /**
   For every input stream: what the chunks say is what its items say, in order,
   up to the item that ends it; and the finish chunk has the reason and, when
   asked for, the usage of the finish item, or "stop" and none without one.
   */
  lemma {:induction false} StreamSays(id: string, model: string, created: nat, hasIdentity: bool, inputs: seq<Input>,
                                      reported: Option<Reported>, opts: Options) returns (m: nat)
    ensures IsEnd(inputs, m)
    ensures var out := Convert(Initial(id, model, created, hasIdentity), inputs, reported, opts).out;
            && Said(out) == ExpectedUpTo(inputs, if m < |inputs| then m + 1 else m, opts) && OnlyFinishEnds(out)
            && if m < |inputs| && inputs[m].PartIn? then
                 Ends(out, Some((inputs[m].part.reason, inputs[m].part.raw)), Some(inputs[m].part.usage), opts)
               else Ends(out, None, None, opts)
  {
    var st := Initial(id, model, created, hasIdentity);
    assert Keeps(st, inputs, 0);
    m := |inputs|;
    if !Proofs.IsLive(inputs, m) { m := Proofs.FirstEnding(inputs, m); }
    RunSays(st, inputs, m, opts);
    EndSays(st, inputs, m, reported, opts);
    ConvertIsPlain(st, inputs, reported, opts);
    hide Initial, Keeps, Convert, After, Ends, Said, OnlyFinishEnds;
  }

  lemma {:induction false} ConvertIsPlain(st: State, inputs: seq<Input>, reported: Option<Reported>, opts: Options)
    ensures OnlyFinishEnds(Convert(st, inputs, reported, opts).out)
  {
    var r := After(st, inputs, |inputs|, opts);
    RunIsPlain(st, inputs, |inputs|, opts);
    EndIsPlain(r.st, "", reported, opts);
    hide Close, OnlyFinishEnds;
    EmitIsPlain(r, Close(r.st, reported, opts), true);
  }

  lemma {:induction false} EndSays(st: State, inputs: seq<Input>, m: nat, reported: Option<Reported>, opts: Options)
    requires IsEnd(inputs, m)
    requires var r := After(st, inputs, m, opts);
             Keeps(r.st, inputs, m) && !r.done && Said(r.out) == ExpectedUpTo(inputs, m, opts)
    ensures var out := Convert(st, inputs, reported, opts).out;
            && Said(out) == ExpectedUpTo(inputs, if m < |inputs| then m + 1 else m, opts)
            && if m < |inputs| && inputs[m].PartIn? then
                 Ends(out, Some((inputs[m].part.reason, inputs[m].part.raw)), Some(inputs[m].part.usage), opts)
               else Ends(out, None, None, opts)
  {
    hide ProcessPart, Fail, Close, Said, Outputs, EndsWith, Ends, Streamed, IsOpened, Proofs.IsLive, SaidIn, Emit;
    var r := After(st, inputs, m, opts);
    if m < |inputs| {
      assert After(st, inputs, m + 1, opts) == Advance(r, inputs[m], opts);
      match inputs[m] {
      case FatalError(message, known) =>
        EndingSays(r.st, Some(message), known, opts);
        EmitEnds(r, Fail(r.st, message, known, opts), None, None, opts);
        EmitIsDone(r, Fail(r.st, message, known, opts));
      case PartIn(part, known) =>
        FinishSays(r.st, part.reason, part.raw, part.usage, known, opts);
        EmitEnds(r, ProcessPart(r.st, part, known, opts), Some((part.reason, part.raw)), Some(part.usage), opts);
        EmitIsDone(r, ProcessPart(r.st, part, known, opts));
      case RecoverableError(_) =>
      }
      DoneStays(st, inputs, m + 1, opts);
    } else {
      EndingSays(r.st, None, reported, opts);
      EmitEnds(r, Close(r.st, reported, opts), None, None, opts);
    }
  }

  lemma {:induction false} EmitIsDone(r: Run, s: Step)
    ensures Emit(r, s, true).done
  {
  }
}
