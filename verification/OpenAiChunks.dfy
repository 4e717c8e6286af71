/**
 The conversion of a text stream to OpenAI chat-completion chunks: the role
 frame, tool-call indices with argument back-fill, and the finish chunk.
 Ids, the creation time and the identity a provider reports are inputs.
 */
module OpenAiChunks {
  import opened Wrappers

  datatype FinishReason = Stop | Length | ContentFilter | ToolCalls | Failed | Other

  datatype Usage = Usage(prompt: nat, completion: nat)

  /** The parts the conversion tells apart. The arguments of a call are its
      rendered input; a provider result or error carries its rendered text. */
  datatype Part =
    | Start
    | FinishStep(responseId: string, responseModel: string)
    | TextStart
    | TextDelta(text: string)
    | ReasoningDelta(text: string)
    | ToolInputStart(id: string, name: string)
    | ToolInputDelta(id: string, delta: string)
    | ToolCall(id: string, name: string, arguments: string)
    | ToolResult(name: string, text: string)
    | ProviderToolError(name: string, text: string)
    | File(mediaType: string, base64: string)
    | SourceUrl(url: string)
    | Finish(reason: FinishReason, raw: Option<string>, usage: Usage)
    | Error(message: string)
    | NoEquivalent

  datatype Reported = Reported(id: Option<string>, model: Option<string>)

  /** An item of the stream, with what the provider has reported by then. */
  datatype Input =
    | PartIn(part: Part, reported: Option<Reported>)
    | RecoverableError(message: string)
    | FatalError(message: string, reported: Option<Reported>)

  datatype Delta =
    | Role
    | Content(text: string)
    | Reasoning(text: string)
    | Tool(index: nat, id: Option<string>, name: Option<string>, arguments: string)
    | Empty

  datatype Chunk = Chunk(id: string, model: string, created: nat, delta: Delta,
                         finishReason: Option<string>, usage: Option<Usage>)

  datatype Output = ChunkOut(chunk: Chunk) | ErrorOut(message: string)

  datatype Accum = Accum(index: nat, name: string, arguments: string)

  datatype Options = Options(includeUsage: bool, includeReasoning: bool)

  datatype State = State(
    id: string, model: string, created: nat, started: bool,
    toolCalls: map<string, Accum>, order: seq<string>, nextIndex: nat, openedIds: set<string>,
    usage: Option<Usage>, finish: Option<(FinishReason, Option<string>)>, finishEmitted: bool,
    hasIdentity: bool, startPending: bool)

  /** A state and the chunks sent to get there. */
  datatype Step = Step(st: State, chunks: seq<Chunk>)

  function Initial(id: string, model: string, created: nat, hasIdentity: bool): State {
    State(id, model, created, false, map[], [], 0, {}, None, None, false, hasIdentity, false)
  }

  function FinishReasonText(reason: FinishReason, raw: Option<string>): string {
    match reason
    case Stop => "stop"
    case Length => "length"
    case ContentFilter => "content_filter"
    case ToolCalls => "tool_calls"
    case Failed => "stop"
    case Other => if raw.Some? then raw.value else "stop"
  }

  function BaseChunk(st: State, delta: Delta): Chunk { Chunk(st.id, st.model, st.created, delta, None, None) }

  function Then(s: Step, chunks: seq<Chunk>): Step { Step(s.st, s.chunks + chunks) }

  function EnsureStarted(st: State, reported: Option<Reported>): Step {
    if st.started then Step(st, [])
    else
      var r := if st.hasIdentity && reported.Some? then reported.value else Reported(None, None);
      var st' := st.(started := true,
                     id := if r.id.Some? then r.id.value else st.id,
                     model := if r.model.Some? then r.model.value else st.model);
      Step(st', [BaseChunk(st', Role)])
  }

  function PendingStart(st: State, reported: Option<Reported>): Step {
    if st.startPending then EnsureStarted(st, reported) else Step(st, [])
  }

  function Send(s: Step, delta: Delta): Step { Then(s, [BaseChunk(s.st, delta)]) }

  function ErrorChunk(st: State, message: string): Step {
    if st.finishEmitted then Step(st, [])
    else Send(Step(st.(started := true), []), Content("[error] " + message))
  }

  function FinalChunk(st: State, opts: Options): Step {
    if st.finishEmitted then Step(st, [])
    else
      var st' := st.(finishEmitted := true, started := true);
      var reason := if st.finish.Some? then FinishReasonText(st.finish.value.0, st.finish.value.1) else "stop";
      var usage := if opts.includeUsage then st.usage else None;
      Step(st', [BaseChunk(st', Empty).(finishReason := Some(reason), usage := usage)])
  }

  predicate IsPrefix(a: string, b: string) { |a| <= |b| && b[..|a|] == a }

  /** A new index for `id`, recorded with the arguments sent so far. */
  function Allocate(st: State, id: string, name: string, arguments: string): State {
    st.(toolCalls := st.toolCalls[id := Accum(st.nextIndex, name, arguments)],
        order := st.order + [id], nextIndex := st.nextIndex + 1)
  }

  function InputStart(s: Step, id: string, name: string): Step {
    var st := if id in s.st.toolCalls then s.st else Allocate(s.st, id, name, "");
    var st' := st.(openedIds := st.openedIds + {id});
    Send(Step(st', s.chunks), Tool(st'.toolCalls[id].index, Some(id), Some(name), ""))
  }

  function InputDelta(s: Step, id: string, delta: string): Step {
    var st :=
      if id in s.st.toolCalls then
        var acc := s.st.toolCalls[id];
        s.st.(toolCalls := s.st.toolCalls[id := acc.(arguments := acc.arguments + delta)])
      else Allocate(s.st, id, "", delta);
    Send(Step(st, s.chunks), Tool(st.toolCalls[id].index, Option.None, Option.None, delta))
  }

  /** The final call of an opened id: what was not streamed of its arguments. */
  function BackFill(st: State, id: string, arguments: string): Step {
    if id !in st.toolCalls || !IsPrefix(st.toolCalls[id].arguments, arguments) then Step(st, [])
    else
      var acc := st.toolCalls[id];
      var missing := arguments[|acc.arguments|..];
      if missing == "" then Step(st, [])
      else
        var st' := st.(toolCalls := st.toolCalls[id := acc.(arguments := acc.arguments + missing)]);
        Send(Step(st', []), Tool(acc.index, None, None, missing))
  }

  function WholeCall(s: Step, id: string, name: string, arguments: string): Step {
    var st := Allocate(s.st, id, name, arguments);
    var st' := st.(openedIds := st.openedIds + {id});
    Send(Step(st', s.chunks), Tool(s.st.nextIndex, Some(id), Some(name), arguments))
  }

  function ProcessPart(st: State, part: Part, reported: Option<Reported>, opts: Options): Step {
    match part
    case Start => if st.hasIdentity then Step(st.(startPending := true), []) else EnsureStarted(st, reported)
    case FinishStep(id, model) =>
      Step(if !st.started && !st.hasIdentity then st.(id := id, model := model) else st, [])
    case TextStart => EnsureStarted(st, reported)
    case TextDelta(text) => Send(EnsureStarted(st, reported), Content(text))
    case ReasoningDelta(text) =>
      if opts.includeReasoning then Send(EnsureStarted(st, reported), Reasoning(text)) else Step(st, [])
    case ToolInputStart(id, name) => InputStart(EnsureStarted(st, reported), id, name)
    case ToolInputDelta(id, delta) => InputDelta(EnsureStarted(st, reported), id, delta)
    case ToolCall(id, name, arguments) =>
      if id in st.openedIds then BackFill(st, id, arguments)
      else WholeCall(EnsureStarted(st, reported), id, name, arguments)
    case ToolResult(name, text) =>
      Send(EnsureStarted(st, reported), Content("[tool result: " + name + "] " + text))
    case ProviderToolError(name, text) =>
      Send(EnsureStarted(st, reported), Content("[tool error: " + name + "] " + text))
    case File(mediaType, base64) =>
      Send(EnsureStarted(st, reported), Content("data:" + mediaType + ";base64," + base64))
    case SourceUrl(url) =>
      var s := EnsureStarted(st, reported);
      if url == "" then s else Send(s, Content(url))
    case Finish(reason, raw, usage) =>
      var s := PendingStart(st.(usage := Some(usage), finish := Some((reason, raw))), reported);
      var f := FinalChunk(s.st, opts);
      Step(f.st, s.chunks + f.chunks)
    case Error(message) =>
      var s := PendingStart(st, reported);
      var e := ErrorChunk(s.st, message);
      Step(e.st, s.chunks + e.chunks)
    case NoEquivalent => Step(st, [])
  }

  /** A transport error: shown as content, then the stream finishes. */
  function Fail(st: State, message: string, reported: Option<Reported>, opts: Options): Step {
    var s := PendingStart(st, reported);
    var e := ErrorChunk(s.st, message);
    var f := FinalChunk(e.st, opts);
    Step(f.st, s.chunks + e.chunks + f.chunks)
  }

  /** The end of a stream that did not finish. */
  function Close(st: State, reported: Option<Reported>, opts: Options): Step {
    var s := PendingStart(st, reported);
    var f := FinalChunk(s.st, opts);
    Step(f.st, s.chunks + f.chunks)
  }

  // ----- The run over a stream

  /** Where the conversion stands: `done` once it has returned. */
  datatype Run = Run(st: State, out: seq<Output>, done: bool)

  function Outputs(chunks: seq<Chunk>): (out: seq<Output>)
    ensures |out| == |chunks| && forall i :: 0 <= i < |out| ==> out[i] == ChunkOut(chunks[i])
  {
    seq(|chunks|, i requires 0 <= i < |chunks| => ChunkOut(chunks[i]))
  }

  function Emit(r: Run, s: Step, done: bool): Run { Run(s.st, r.out + Outputs(s.chunks), done) }

  function Advance(r: Run, input: Input, opts: Options): Run {
    if r.done then r
    else
      match input
      case PartIn(part, reported) => Emit(r, ProcessPart(r.st, part, reported, opts), part.Finish?)
      case RecoverableError(message) => r.(out := r.out + [ErrorOut(message)])
      case FatalError(message, reported) => Emit(r, Fail(r.st, message, reported, opts), true)
  }

  /** After the first `n` items. */
  function After(st: State, inputs: seq<Input>, n: nat, opts: Options): Run
    requires n <= |inputs|
  {
    if n == 0 then Run(st, [], false) else Advance(After(st, inputs, n - 1, opts), inputs[n - 1], opts)
  }

  /** The whole chunk stream; `reported` is the identity at the end. */
  function Convert(st: State, inputs: seq<Input>, reported: Option<Reported>, opts: Options): Run {
    var r := After(st, inputs, |inputs|, opts);
    if r.done then r else Emit(r, Close(r.st, reported, opts), true)
  }

  // ----- The converter, updating its fields

  class Converter {
    const created: nat
    const hasIdentity: bool
    var id: string
    var model: string
    var started: bool
    var toolCalls: map<string, Accum>
    var order: seq<string>
    var nextIndex: nat
    var openedIds: set<string>
    var usage: Option<Usage>
    var finish: Option<(FinishReason, Option<string>)>
    var finishEmitted: bool
    var startPending: bool

    ghost function View(): State
      reads this
    {
      State(id, model, created, started, toolCalls, order, nextIndex, openedIds, usage, finish,
            finishEmitted, hasIdentity, startPending)
    }

    constructor (id: string, model: string, created: nat, hasIdentity: bool)
      ensures View() == Initial(id, model, created, hasIdentity)
    {
      this.id, this.model, this.created, this.hasIdentity := id, model, created, hasIdentity;
      started, toolCalls, order, nextIndex, openedIds := false, map[], [], 0, {};
      usage, finish, finishEmitted, startPending := None, None, false, false;
    }

    function Base(delta: Delta): Chunk
      reads this
    {
      Chunk(id, model, created, delta, None, None)
    }

    method Begin(reported: Option<Reported>) returns (chunks: seq<Chunk>)
      modifies this
      ensures Step(View(), chunks) == EnsureStarted(old(View()), reported)
    {
      if started { return []; }
      started := true;
      if hasIdentity && reported.Some? {
        if reported.value.id.Some? { id := reported.value.id.value; }
        if reported.value.model.Some? { model := reported.value.model.value; }
      }
      chunks := [Base(Role)];
    }

    method BeginIfPending(reported: Option<Reported>) returns (chunks: seq<Chunk>)
      modifies this
      ensures Step(View(), chunks) == PendingStart(old(View()), reported)
    {
      chunks := [];
      if startPending { chunks := Begin(reported); }
    }

    method ShowError(message: string) returns (chunks: seq<Chunk>)
      modifies this
      ensures Step(View(), chunks) == ErrorChunk(old(View()), message)
    {
      if finishEmitted { return []; }
      started := true;
      chunks := [Base(Content("[error] " + message))];
    }

    method Conclude(opts: Options) returns (chunks: seq<Chunk>)
      modifies this
      ensures Step(View(), chunks) == FinalChunk(old(View()), opts)
    {
      if finishEmitted { return []; }
      finishEmitted := true;
      if !started { started := true; }
      var reason := if finish.Some? then FinishReasonText(finish.value.0, finish.value.1) else "stop";
      var chunk := Base(Empty);
      chunks := [chunk.(finishReason := Some(reason), usage := if opts.includeUsage then usage else None)];
    }

    method Say(delta: Delta, reported: Option<Reported>) returns (chunks: seq<Chunk>)
      modifies this
      ensures Step(View(), chunks) == Send(EnsureStarted(old(View()), reported), delta)
    {
      chunks := Begin(reported);
      chunks := chunks + [Base(delta)];
    }

    method NewIndex(id: string, name: string, arguments: string)
      modifies this
      ensures View() == Allocate(old(View()), id, name, arguments)
    {
      toolCalls := toolCalls[id := Accum(nextIndex, name, arguments)];
      order := order + [id];
      nextIndex := nextIndex + 1;
    }

    method OpenCall(id: string, name: string, reported: Option<Reported>) returns (chunks: seq<Chunk>)
      modifies this
      ensures Step(View(), chunks) == InputStart(EnsureStarted(old(View()), reported), id, name)
    {
      chunks := Begin(reported);
      if id !in toolCalls { NewIndex(id, name, ""); }
      openedIds := openedIds + {id};
      chunks := chunks + [Base(Tool(toolCalls[id].index, Some(id), Some(name), ""))];
    }

    method StreamArguments(id: string, delta: string, reported: Option<Reported>) returns (chunks: seq<Chunk>)
      modifies this
      ensures Step(View(), chunks) == InputDelta(EnsureStarted(old(View()), reported), id, delta)
    {
      chunks := Begin(reported);
      if id in toolCalls {
        var acc := toolCalls[id];
        toolCalls := toolCalls[id := acc.(arguments := acc.arguments + delta)];
      } else {
        NewIndex(id, "", delta);
      }
      chunks := chunks + [Base(Tool(toolCalls[id].index, None, None, delta))];
    }

    method FinishCall(id: string, name: string, arguments: string, reported: Option<Reported>) returns (chunks: seq<Chunk>)
      modifies this
      ensures Step(View(), chunks)
           == if id in old(openedIds) then BackFill(old(View()), id, arguments)
              else WholeCall(EnsureStarted(old(View()), reported), id, name, arguments)
    {
      if id in openedIds {
        if id !in toolCalls || !IsPrefix(toolCalls[id].arguments, arguments) { return []; }
        var acc := toolCalls[id];
        var missing := arguments[|acc.arguments|..];
        if missing == "" { return []; }
        toolCalls := toolCalls[id := acc.(arguments := acc.arguments + missing)];
        return [Base(Tool(acc.index, None, None, missing))];
      }
      chunks := Begin(reported);
      var index := nextIndex;
      NewIndex(id, name, arguments);
      openedIds := openedIds + {id};
      chunks := chunks + [Base(Tool(index, Some(id), Some(name), arguments))];
    }

    method Abandon(message: string, reported: Option<Reported>, opts: Options) returns (chunks: seq<Chunk>)
      modifies this
      ensures Step(View(), chunks) == Fail(old(View()), message, reported, opts)
    {
      var start := BeginIfPending(reported);
      var error := ShowError(message);
      var last := Conclude(opts);
      chunks := start + error + last;
    }

    method End(reported: Option<Reported>, opts: Options) returns (chunks: seq<Chunk>)
      modifies this
      ensures Step(View(), chunks) == Close(old(View()), reported, opts)
    {
      var start := BeginIfPending(reported);
      var last := Conclude(opts);
      chunks := start + last;
    }

    method Cite(url: string, reported: Option<Reported>, opts: Options) returns (chunks: seq<Chunk>)
      modifies this
      ensures Step(View(), chunks) == ProcessPart(old(View()), SourceUrl(url), reported, opts)
    {
      hide EnsureStarted;
      chunks := Begin(reported);
      if url != "" { chunks := chunks + [Base(Content(url))]; }
    }

    method Complete(reason: FinishReason, raw: Option<string>, total: Usage, reported: Option<Reported>, opts: Options)
      returns (chunks: seq<Chunk>)
      modifies this
      ensures Step(View(), chunks) == ProcessPart(old(View()), Finish(reason, raw, total), reported, opts)
    {
      hide PendingStart, FinalChunk;
      usage, finish := Some(total), Some((reason, raw));
      chunks := BeginIfPending(reported);
      var last := Conclude(opts);
      chunks := chunks + last;
    }

    method ShowStreamError(message: string, reported: Option<Reported>, opts: Options) returns (chunks: seq<Chunk>)
      modifies this
      ensures Step(View(), chunks) == ProcessPart(old(View()), Error(message), reported, opts)
    {
      hide PendingStart, ErrorChunk;
      chunks := BeginIfPending(reported);
      var shown := ShowError(message);
      chunks := chunks + shown;
    }

    method Process(part: Part, reported: Option<Reported>, opts: Options) returns (chunks: seq<Chunk>)
      modifies this
      ensures Step(View(), chunks) == ProcessPart(old(View()), part, reported, opts)
    {
      hide EnsureStarted, PendingStart, FinalChunk, ErrorChunk, InputStart, InputDelta, BackFill, WholeCall;
      chunks := [];
      match part
      case Start => if hasIdentity { startPending := true; } else { chunks := Begin(reported); }
      case FinishStep(responseId, responseModel) =>
        if !started && !hasIdentity { id, model := responseId, responseModel; }
      case TextStart => chunks := Begin(reported);
      case TextDelta(text) => chunks := Say(Content(text), reported);
      case ReasoningDelta(text) => if opts.includeReasoning { chunks := Say(Reasoning(text), reported); }
      case ToolInputStart(callId, name) => chunks := OpenCall(callId, name, reported);
      case ToolInputDelta(callId, delta) => chunks := StreamArguments(callId, delta, reported);
      case ToolCall(callId, name, arguments) => chunks := FinishCall(callId, name, arguments, reported);
      case ToolResult(name, text) => chunks := Say(Content("[tool result: " + name + "] " + text), reported);
      case ProviderToolError(name, text) => chunks := Say(Content("[tool error: " + name + "] " + text), reported);
      case File(mediaType, base64) => chunks := Say(Content("data:" + mediaType + ";base64," + base64), reported);
      case SourceUrl(url) => chunks := Cite(url, reported, opts);
      case Finish(reason, raw, total) => chunks := Complete(reason, raw, total, reported, opts);
      case Error(message) => chunks := ShowStreamError(message, reported, opts);
      case NoEquivalent =>
    }
  }

  method ConvertStream(id: string, model: string, created: nat, hasIdentity: bool, inputs: seq<Input>,
                       reported: Option<Reported>, opts: Options)
    returns (out: seq<Output>)
    ensures out == Convert(Initial(id, model, created, hasIdentity), inputs, reported, opts).out
  {
    hide ProcessPart, Fail, Close, Initial;
    var converter := new Converter(id, model, created, hasIdentity);
    ghost var st := converter.View();
    out := [];
    var chunks: seq<Chunk>;
    for n := 0 to |inputs|
      invariant After(st, inputs, n, opts) == Run(converter.View(), out, false)
    {
      match inputs[n] {
      case RecoverableError(message) =>
        out := out + [ErrorOut(message)];
      case FatalError(message, known) =>
        chunks := converter.Abandon(message, known, opts);
        out := out + Outputs(chunks);
        DoneStays(st, inputs, n + 1, opts);
        return;
      case PartIn(part, known) =>
        chunks := converter.Process(part, known, opts);
        out := out + Outputs(chunks);
        if part.Finish? {
          DoneStays(st, inputs, n + 1, opts);
          return;
        }
      }
    }
    chunks := converter.End(reported, opts);
    out := out + Outputs(chunks);
  }

  lemma {:induction false} DoneStays(st: State, inputs: seq<Input>, n: nat, opts: Options)
    requires n <= |inputs| && After(st, inputs, n, opts).done
    ensures After(st, inputs, |inputs|, opts) == After(st, inputs, n, opts)
    decreases |inputs| - n
  {
    hide ProcessPart, Fail;
    if n < |inputs| { DoneStays(st, inputs, n + 1, opts); }
  }
}
