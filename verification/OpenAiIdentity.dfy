/**
 Whose stream it is: the id and model all chunks carry and whether there is a
 role frame, by the first item that shows anything.
 */
module OpenAiIdentity {
  import opened Wrappers
  import opened OpenAiChunks
  import opened Proofs = OpenAiProofs

  /** The item sends a chunk when none has been sent. */
  predicate Starts(input: Input, hasIdentity: bool, opts: Options) {
    match input
    case RecoverableError(_) => false
    case FatalError(_, _) => true
    case PartIn(part, _) =>
      match part
      case Start => !hasIdentity
      case FinishStep(_, _) => false
      case ReasoningDelta(_) => opts.includeReasoning
      case NoEquivalent => false
      case _ => true
  }

  /** The first item that shows anything, or the end of the items. */
  ghost predicate IsFirstShown(inputs: seq<Input>, p: nat, hasIdentity: bool, opts: Options) {
    && p <= |inputs| && (forall k :: 0 <= k < p ==> !Starts(inputs[k], hasIdentity, opts))
    && (p < |inputs| ==> Starts(inputs[p], hasIdentity, opts))
  }

  predicate IsStart(input: Input) { input.PartIn? && input.part.Start? }

  /** Output comes after a role frame; an error, a finish or the end only when a
      start is waiting for its frame. */
  predicate HasRoleFrame(inputs: seq<Input>, p: nat, hasIdentity: bool)
    requires p <= |inputs|
  {
    (p < |inputs| && inputs[p].PartIn? && !inputs[p].part.Finish? && !inputs[p].part.Error?) ||
    (hasIdentity && exists k :: 0 <= k < p && IsStart(inputs[k]))
  }

  /** Without an identity to report, that of the last step finished by then. */
  function OwnIdentity(given: (string, string), inputs: seq<Input>, n: nat, hasIdentity: bool): (string, string)
    requires n <= |inputs|
  {
    if n == 0 then given
    else
      match inputs[n - 1]
      case PartIn(FinishStep(id, model), _) => if hasIdentity then OwnIdentity(given, inputs, n - 1, true) else (id, model)
      case _ => OwnIdentity(given, inputs, n - 1, hasIdentity)
  }

  /** What the provider has reported when the role frame is sent comes first. */
  function Reporting(own: (string, string), known: Option<Reported>): (string, string) {
    match known
    case None => own
    case Some(Reported(id, model)) => (if id.Some? then id.value else own.0, if model.Some? then model.value else own.1)
  }

  function KnownAt(inputs: seq<Input>, p: nat, reported: Option<Reported>): Option<Reported>
    requires p <= |inputs|
  {
    if p == |inputs| then reported else if inputs[p].RecoverableError? then None else inputs[p].reported
  }

  function Identity(given: (string, string), inputs: seq<Input>, p: nat, hasIdentity: bool, reported: Option<Reported>): (string, string)
    requires p <= |inputs|
  {
    var own := OwnIdentity(given, inputs, p, hasIdentity);
    if hasIdentity && HasRoleFrame(inputs, p, hasIdentity) then Reporting(own, KnownAt(inputs, p, reported)) else own
  }

  function IdentityOf(st: State): (string, string) { (st.id, st.model) }

  // ----- Before anything is shown

  ghost predicate Waits(r: Run, given: (string, string), inputs: seq<Input>, n: nat, hasIdentity: bool)
    requires n <= |inputs|
  {
    && !r.done && !r.st.started && !r.st.finishEmitted && r.st.hasIdentity == hasIdentity
    && IdentityOf(r.st) == OwnIdentity(given, inputs, n, hasIdentity)
    && (r.st.startPending <==> hasIdentity && exists k :: 0 <= k < n && IsStart(inputs[k]))
    && (forall i :: 0 <= i < |r.out| ==> r.out[i].ErrorOut?)
  }

  lemma {:induction false} StillWaits(r: Run, given: (string, string), inputs: seq<Input>, n: nat, hasIdentity: bool, opts: Options)
    requires n < |inputs| && Waits(r, given, inputs, n, hasIdentity) && !Starts(inputs[n], hasIdentity, opts)
    ensures Waits(Advance(r, inputs[n], opts), given, inputs, n + 1, hasIdentity)
  {
    assert (exists k :: 0 <= k < n + 1 && IsStart(inputs[k])) <==> (exists k :: 0 <= k < n && IsStart(inputs[k])) || IsStart(inputs[n]);
    assert Outputs([]) == [];
    assert r.out + [] == r.out;
  }

  lemma {:induction false} WaitsTo(st: State, inputs: seq<Input>, n: nat, p: nat, opts: Options)
    requires n <= p && IsFirstShown(inputs, p, st.hasIdentity, opts)
    requires !st.started && !st.finishEmitted && !st.startPending
    ensures Waits(After(st, inputs, n, opts), IdentityOf(st), inputs, n, st.hasIdentity)
  {
    if n > 0 {
      WaitsTo(st, inputs, n - 1, p, opts);
      hide Waits, Advance;
      StillWaits(After(st, inputs, n - 1, opts), IdentityOf(st), inputs, n - 1, st.hasIdentity, opts);
    }
  }

  // ----- The step that shows the first chunk

  ghost predicate Opens(st: State, s: Step, role: bool, known: Option<Reported>) {
    && s.st.started && s.chunks != [] && (s.chunks[0].delta.Role? <==> role)
    && IdentityOf(s.st) == if st.hasIdentity && role then Reporting(IdentityOf(st), known) else IdentityOf(st)
  }

  lemma {:induction false} BeginOpens(st: State, reported: Option<Reported>)
    requires !st.started
    ensures Opens(st, EnsureStarted(st, reported), true, reported)
  {
  }

  lemma {:induction false} PartOpens(st: State, part: Part, reported: Option<Reported>, opts: Options)
    requires !st.started && !st.finishEmitted && st.openedIds == {} && Starts(PartIn(part, reported), st.hasIdentity, opts)
    ensures Opens(st, ProcessPart(st, part, reported, opts), st.startPending || (!part.Finish? && !part.Error?), reported)
  {
    BeginOpens(st, reported);
    hide EnsureStarted;
  }

  lemma {:induction false} EndOpens(st: State, message: string, reported: Option<Reported>, opts: Options)
    requires !st.started && !st.finishEmitted
    ensures Opens(st, Fail(st, message, reported, opts), st.startPending, reported)
    ensures Opens(st, Close(st, reported, opts), st.startPending, reported)
  {
    BeginOpens(st, reported);
  }

  // ----- Once it is shown

  ghost predicate HasRole(out: seq<Output>) { exists i :: 0 <= i < |out| && IsRole(out[i]) }

  /** The run has shown a chunk, and is this one's. */
  ghost predicate Shows(r: Run, identity: (string, string), role: bool) {
    && r.st.started && IdentityOf(r.st) == identity && (HasRole(r.out) <==> role)
  }

  lemma {:induction false} EmitShows(r: Run, s: Step, done: bool, role: bool, known: Option<Reported>)
    requires Opens(r.st, s, role, known) && Frames(r.st, s) && forall i :: 0 <= i < |r.out| ==> r.out[i].ErrorOut?
    ensures Shows(Emit(r, s, done), IdentityOf(s.st), role)
  {
    var out := Emit(r, s, done).out;
    assert forall i :: |r.out| <= i < |out| ==> out[i] == ChunkOut(s.chunks[i - |r.out|]);
    assert out[|r.out|] == ChunkOut(s.chunks[0]);
  }

  lemma {:induction false} EmitStillShows(r: Run, s: Step, done: bool, identity: (string, string), role: bool)
    requires Shows(r, identity, role) && Frames(r.st, s)
    ensures Shows(Emit(r, s, done), identity, role)
  {
    var out := Emit(r, s, done).out;
    assert forall i :: |r.out| <= i < |out| ==> out[i] == ChunkOut(s.chunks[i - |r.out|]);
    assert forall i :: 0 <= i < |r.out| ==> out[i] == r.out[i];
  }

  lemma {:induction false} ErrorStillShows(r: Run, message: string, identity: (string, string), role: bool)
    requires Shows(r, identity, role)
    ensures Shows(r.(out := r.out + [ErrorOut(message)]), identity, role)
  {
    var out := r.out + [ErrorOut(message)];
    assert forall i :: 0 <= i < |r.out| ==> out[i] == r.out[i];
  }

  lemma {:induction false} StillShows(r: Run, input: Input, opts: Options, identity: (string, string), role: bool)
    requires Sound(r) && Shows(r, identity, role)
    ensures Shows(Advance(r, input, opts), identity, role)
  {
    hide Sound, Shows, Frames, Finished, Unfinished, Emit, ProcessPart, Fail, Tracked;
    if !r.done {
      SoundState(r);
      match input
      case PartIn(part, known) =>
        StepFrames(r.st, part, known, opts);
        EmitStillShows(r, ProcessPart(r.st, part, known, opts), part.Finish?, identity, role);
      case RecoverableError(message) => ErrorStillShows(r, message, identity, role);
      case FatalError(message, known) =>
        EndFrames(r.st, message, known, opts);
        EmitStillShows(r, Fail(r.st, message, known, opts), true, identity, role);
    }
  }

  lemma {:induction false} NoneOpened(st: State)
    requires Tracked(st) && !st.started
    ensures st.openedIds == {}
  {
  }

  /** The item at `p` shows the first chunk. */
  lemma {:induction false} ItemOpens(r: Run, given: (string, string), inputs: seq<Input>, p: nat, hasIdentity: bool,
                                     reported: Option<Reported>, opts: Options)
    requires p < |inputs| && Sound(r) && Waits(r, given, inputs, p, hasIdentity) && Starts(inputs[p], hasIdentity, opts)
    ensures Shows(Advance(r, inputs[p], opts), Identity(given, inputs, p, hasIdentity, reported), HasRoleFrame(inputs, p, hasIdentity))
  {
    SoundState(r);
    NoneOpened(r.st);
    var role := HasRoleFrame(inputs, p, hasIdentity);
    hide Sound, Frames, Finished, Unfinished, Emit, ProcessPart, Fail, Tracked, Shows, OwnIdentity, Reporting;
    match inputs[p]
    case PartIn(part, known) =>
      StepFrames(r.st, part, known, opts);
      PartOpens(r.st, part, known, opts);
      EmitShows(r, ProcessPart(r.st, part, known, opts), part.Finish?, role, known);
    case RecoverableError(_) =>
    case FatalError(message, known) =>
      EndFrames(r.st, message, known, opts);
      EndOpens(r.st, message, known, opts);
      EmitShows(r, Fail(r.st, message, known, opts), true, role, known);
  }

  lemma {:induction false} ShowsAfter(st: State, inputs: seq<Input>, p: nat, n: nat, reported: Option<Reported>, opts: Options)
    requires p < n <= |inputs| && IsFirstShown(inputs, p, st.hasIdentity, opts)
    requires !st.started && !st.finishEmitted && !st.startPending && Sound(Run(st, [], false))
    ensures Shows(After(st, inputs, n, opts), Identity(IdentityOf(st), inputs, p, st.hasIdentity, reported),
                  HasRoleFrame(inputs, p, st.hasIdentity))
  {
    AfterSound(st, inputs, n - 1, opts);
    var r := After(st, inputs, n - 1, opts);
    if n == p + 1 {
      WaitsTo(st, inputs, p, p, opts);
      hide Sound, Waits, Advance, Shows, Identity, HasRoleFrame;
      ItemOpens(r, IdentityOf(st), inputs, p, st.hasIdentity, reported, opts);
    } else {
      ShowsAfter(st, inputs, p, n - 1, reported, opts);
      hide Sound, Advance, Shows, Identity, HasRoleFrame;
      StillShows(r, inputs[n - 1], opts, Identity(IdentityOf(st), inputs, p, st.hasIdentity, reported),
                 HasRoleFrame(inputs, p, st.hasIdentity));
    }
  }

  lemma {:induction false} ShowsAtEnd(st: State, inputs: seq<Input>, p: nat, reported: Option<Reported>, opts: Options)
    requires IsFirstShown(inputs, p, st.hasIdentity, opts)
    requires !st.started && !st.finishEmitted && !st.startPending && Sound(Run(st, [], false))
    ensures Shows(Convert(st, inputs, reported, opts), Identity(IdentityOf(st), inputs, p, st.hasIdentity, reported),
                  HasRoleFrame(inputs, p, st.hasIdentity))
  {
    var n := |inputs|;
    AfterSound(st, inputs, n, opts);
    var r := After(st, inputs, n, opts);
    if r.done || p < n { ShowsEnded(st, inputs, p, reported, opts); }
    if !r.done {
      SoundState(r);
      EndFrames(r.st, "", reported, opts);
      if p == n {
        WaitsTo(st, inputs, n, p, opts);
        EndOpens(r.st, "", reported, opts);
        hide Sound, Frames, Finished, Unfinished, Emit, Close, Tracked, Shows, OwnIdentity, Reporting;
        EmitShows(r, Close(r.st, reported, opts), true, HasRoleFrame(inputs, p, st.hasIdentity), reported);
      } else {
        hide Sound, Frames, Finished, Unfinished, Emit, Close, Tracked, Shows, Identity, HasRoleFrame;
        EmitStillShows(r, Close(r.st, reported, opts), true, Identity(IdentityOf(st), inputs, p, st.hasIdentity, reported),
                       HasRoleFrame(inputs, p, st.hasIdentity));
      }
    }
  }

  /** A run that has ended, or shown a chunk, is past the first that shows one. */
  lemma {:induction false} ShowsEnded(st: State, inputs: seq<Input>, p: nat, reported: Option<Reported>, opts: Options)
    requires IsFirstShown(inputs, p, st.hasIdentity, opts)
    requires !st.started && !st.finishEmitted && !st.startPending && Sound(Run(st, [], false))
    requires After(st, inputs, |inputs|, opts).done || p < |inputs|
    ensures p < |inputs|
    ensures Shows(After(st, inputs, |inputs|, opts), Identity(IdentityOf(st), inputs, p, st.hasIdentity, reported),
                  HasRoleFrame(inputs, p, st.hasIdentity))
  {
    if p == |inputs| { WaitsTo(st, inputs, p, p, opts); }
    hide Sound, Shows, Identity, HasRoleFrame;
    ShowsAfter(st, inputs, p, |inputs|, reported, opts);
  }

  lemma {:induction false} FirstShown(inputs: seq<Input>, n: nat, hasIdentity: bool, opts: Options) returns (p: nat)
    requires n <= |inputs| && forall k :: 0 <= k < n ==> !Starts(inputs[k], hasIdentity, opts)
    ensures IsFirstShown(inputs, p, hasIdentity, opts)
    decreases |inputs| - n
  {
    if n < |inputs| && !Starts(inputs[n], hasIdentity, opts) { p := FirstShown(inputs, n + 1, hasIdentity, opts); } else { p := n; }
  }

  /**
   For every input stream: all its chunks carry the id and model known when the
   first of them is sent, and there is a role frame exactly when that first one
   is output or a start is waiting.
   */
  lemma {:induction false} StreamIsNamed(id: string, model: string, created: nat, hasIdentity: bool, inputs: seq<Input>,
                                         reported: Option<Reported>, opts: Options) returns (p: nat)
    ensures IsFirstShown(inputs, p, hasIdentity, opts)
    ensures var out := Convert(Initial(id, model, created, hasIdentity), inputs, reported, opts).out;
            var identity := Identity((id, model), inputs, p, hasIdentity, reported);
            && (HasRole(out) <==> HasRoleFrame(inputs, p, hasIdentity))
            && forall i :: 0 <= i < |out| && out[i].ChunkOut? ==>
                 out[i].chunk.id == identity.0 && out[i].chunk.model == identity.1
  {
    var st := Initial(id, model, created, hasIdentity);
    InitialSound(id, model, created, hasIdentity);
    p := FirstShown(inputs, 0, hasIdentity, opts);
    ConvertSound(st, inputs, reported, opts);
    hide Convert, Consistent, Identity, HasRoleFrame;
    ShowsAtEnd(st, inputs, p, reported, opts);
  }
}
