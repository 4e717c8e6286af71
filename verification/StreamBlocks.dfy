/**
 No streamed text is lost: when `consume` succeeds, every text and reasoning
 delta the stream carries is in the step's content, in the part of its block.
 A block runs from a start to the next start or end of its id.
 */
module StreamBlocks {
  import opened Wrappers
  import opened Content
  import opened ResponseMessages
  import opened TextStream
  import TextStreamProofs

  datatype Kind = TextKind | ReasoningKind

  /** The id of the block of this kind that a part starts, adds to, or ends. */
  function Starts(p: TextPart, kind: Kind): Option<string> {
    if kind.TextKind? then if p.OutTextStart? then Some(p.id) else None
    else if p.OutReasoningStart? then Some(p.id) else None
  }

  function Adds(p: TextPart, kind: Kind): Option<string> {
    if kind.TextKind? then if p.OutTextDelta? then Some(p.id) else None
    else if p.OutReasoningDelta? then Some(p.id) else None
  }

  function Ends(p: TextPart, kind: Kind): Option<string> {
    if kind.TextKind? then if p.OutTextEnd? then Some(p.id) else None
    else if p.OutReasoningEnd? then Some(p.id) else None
  }

  function Delta(p: TextPart): string {
    match p
    case OutTextDelta(_, text, _) => text
    case OutReasoningDelta(_, text, _) => text
    case _ => ""
  }

  /** Where the block that is open under an id after `n` parts was started. */
  function OpenBlock(parts: seq<TextPart>, kind: Kind, id: string, n: nat): (s: Option<nat>)
    requires n <= |parts|
    ensures s.Some? ==> s.value < n && Starts(parts[s.value], kind) == Some(id)
  {
    if n == 0 then None
    else if Starts(parts[n - 1], kind) == Some(id) then Some(n - 1)
    else if Ends(parts[n - 1], kind) == Some(id) then None
    else OpenBlock(parts, kind, id, n - 1)
  }

  /** The deltas of the block started at `s`, in order, up to `n`. */
  function BlockText(parts: seq<TextPart>, kind: Kind, s: nat, n: nat): string
    requires n <= |parts|
  {
    if n == 0 then ""
    else
      var id := Adds(parts[n - 1], kind);
      BlockText(parts, kind, s, n - 1) +
      if id.Some? && OpenBlock(parts, kind, id.value, n - 1) == Some(s) then Delta(parts[n - 1]) else ""
  }

  // ----- The builder keeps the blocks

  function Built(parts: seq<TextPart>, n: nat): Builder
    requires n <= |parts|
  {
    if n == 0 then EMPTY_BUILDER else Record(Built(parts, n - 1), parts[n - 1])
  }

  predicate IsFraming(p: TextPart) { p.StartStep? || p.FinishStep? }

  function Index(b: Builder, kind: Kind): map<string, nat> { if kind.TextKind? then b.text else b.reasoning }

  function PartText(p: Part, kind: Kind): Option<string> {
    if kind.TextKind? then if p.Text? then Some(p.text) else None
    else if p.Reasoning? then Some(p.text) else None
  }

  /** The place in the content of the block started at `s`. */
  function Place(parts: seq<TextPart>, s: nat): nat
    requires s <= |parts|
  {
    |Built(parts, s).content|
  }

  /** The index map of a kind is its open blocks with their places. */
  ghost predicate IndexKept(parts: seq<TextPart>, kind: Kind, n: nat, b: Builder)
    requires n <= |parts|
  {
    forall id :: if id in Index(b, kind) then OpenAt(parts, kind, id, n, Index(b, kind)[id]) else OpenBlock(parts, kind, id, n).None?
  }

  predicate OpenAt(parts: seq<TextPart>, kind: Kind, id: string, n: nat, place: nat)
    requires n <= |parts|
  {
    var s := OpenBlock(parts, kind, id, n);
    s.Some? && Place(parts, s.value) == place
  }

  /** At the place of every block of the kind is its text. */
  ghost predicate TextsKept(parts: seq<TextPart>, kind: Kind, n: nat, b: Builder)
    requires n <= |parts|
  {
    forall s :: 0 <= s < n && Starts(parts[s], kind).Some? ==>
      Place(parts, s) < |b.content| && PartText(b.content[Place(parts, s)], kind) == Some(BlockText(parts, kind, s, n))
  }

  /** A part of the kind is that of a block. */
  ghost predicate OfBlock(parts: seq<TextPart>, kind: Kind, n: nat, i: nat)
    requires n <= |parts|
  {
    exists s :: 0 <= s < n && Starts(parts[s], kind).Some? && Place(parts, s) == i
  }

  ghost predicate NoOtherText(parts: seq<TextPart>, kind: Kind, n: nat, b: Builder)
    requires n <= |parts|
  {
    forall i :: 0 <= i < |b.content| && PartText(b.content[i], kind).Some? ==> OfBlock(parts, kind, n, i)
  }

  ghost predicate Keeps(parts: seq<TextPart>, kind: Kind, n: nat, b: Builder)
    requires n <= |parts|
  {
    Indexed(b) && IndexKept(parts, kind, n, b) && TextsKept(parts, kind, n, b) && NoOtherText(parts, kind, n, b)
  }

  ghost predicate NoFraming(parts: seq<TextPart>) {
    forall i :: 0 <= i < |parts| ==> !IsFraming(parts[i])
  }

  /** Blocks have places of their own. */
  lemma {:induction false} PlacesGrow(parts: seq<TextPart>, s: nat, n: nat)
    requires s <= n <= |parts| && NoFraming(parts)
    ensures Place(parts, s) <= Place(parts, n)
    ensures s < n && (Starts(parts[s], TextKind).Some? || Starts(parts[s], ReasoningKind).Some?) ==>
              Place(parts, s) < Place(parts, n)
    decreases n
  {
    if s < n { PlacesGrow(parts, s, n - 1); }
  }

  /** How one part changes the open blocks of a kind. */
  ghost predicate IndexEffect(b: Builder, p: TextPart, kind: Kind, b': Builder) {
    Index(b', kind) ==
    if Starts(p, kind).Some? then Index(b, kind)[Starts(p, kind).value := |b.content|]
    else if Ends(p, kind).Some? then Index(b, kind) - {Ends(p, kind).value}
    else Index(b, kind)
  }

  /** How one part changes the texts of a kind: one it adds to grows, one it starts is empty. */
  ghost predicate ContentEffect(b: Builder, p: TextPart, kind: Kind, b': Builder) {
    && |b.content| <= |b'.content|
    && (Starts(p, kind).Some? ==> |b'.content| > |b.content| && PartText(b'.content[|b.content|], kind) == Some(""))
    && (forall i :: |b.content| <= i < |b'.content| && PartText(b'.content[i], kind).Some? ==>
          Starts(p, kind).Some? && i == |b.content|)
    && (forall i :: 0 <= i < |b.content| ==> TextEffect(b, p, kind, i, PartText(b'.content[i], kind)))
  }

  predicate TextEffect(b: Builder, p: TextPart, kind: Kind, i: nat, text: Option<string>)
    requires i < |b.content|
  {
    var was, id := PartText(b.content[i], kind), Adds(p, kind);
    if id.Some? && id.value in Index(b, kind) && Index(b, kind)[id.value] == i
    then was.Some? && text == Some(was.value + Delta(p))
    else text == was
  }

  ghost predicate Effect(b: Builder, p: TextPart, kind: Kind, b': Builder) {
    IndexEffect(b, p, kind, b') && ContentEffect(b, p, kind, b') && Indexed(b')
  }

  lemma {:induction false} StartTextEffect(b: Builder, id: string, metadata: Metadata, kind: Kind)
    requires Indexed(b)
    ensures Effect(b, OutTextStart(id, metadata), kind, StartText(b, id, metadata))
  {
  }

  lemma {:induction false} StartReasoningEffect(b: Builder, id: string, metadata: Metadata, kind: Kind)
    requires Indexed(b)
    ensures Effect(b, OutReasoningStart(id, metadata), kind, StartReasoning(b, id, metadata))
  {
  }

  lemma {:induction false} AddTextEffect(b: Builder, id: string, delta: string, metadata: Metadata, kind: Kind)
    requires Indexed(b)
    ensures Effect(b, OutTextDelta(id, delta, metadata), kind, AddText(b, id, delta, metadata))
  {
  }

  lemma {:induction false} AddReasoningEffect(b: Builder, id: string, delta: string, metadata: Metadata, kind: Kind)
    requires Indexed(b)
    ensures Effect(b, OutReasoningDelta(id, delta, metadata), kind, AddReasoning(b, id, delta, metadata))
  {
  }

  lemma {:induction false} EndTextEffect(b: Builder, id: string, metadata: Metadata, kind: Kind)
    requires Indexed(b)
    ensures Effect(b, OutTextEnd(id, metadata), kind, EndText(b, id, metadata))
  {
    AddTextEffect(b, id, "", metadata, kind);
    hide AddText, ContentEffect, Indexed;
    EmptyDelta(b, OutTextDelta(id, "", metadata), OutTextEnd(id, metadata), kind, AddText(b, id, "", metadata));
    StillIndexed(AddText(b, id, "", metadata), EndText(b, id, metadata));
    SameContent(b, OutTextEnd(id, metadata), kind, AddText(b, id, "", metadata), EndText(b, id, metadata));
  }

  lemma {:induction false} EndReasoningEffect(b: Builder, id: string, metadata: Metadata, kind: Kind)
    requires Indexed(b)
    ensures Effect(b, OutReasoningEnd(id, metadata), kind, EndReasoning(b, id, metadata))
  {
    AddReasoningEffect(b, id, "", metadata, kind);
    hide AddReasoning, ContentEffect, Indexed;
    EmptyDelta(b, OutReasoningDelta(id, "", metadata), OutReasoningEnd(id, metadata), kind, AddReasoning(b, id, "", metadata));
    StillIndexed(AddReasoning(b, id, "", metadata), EndReasoning(b, id, metadata));
    SameContent(b, OutReasoningEnd(id, metadata), kind, AddReasoning(b, id, "", metadata), EndReasoning(b, id, metadata));
  }

  /** An empty delta changes no text, so an end may stand for it. */
  lemma {:induction false} EmptyDelta(b: Builder, p: TextPart, q: TextPart, kind: Kind, b': Builder)
    requires ContentEffect(b, p, kind, b') && Delta(p) == ""
    requires Starts(p, kind).None? && Starts(q, kind).None? && Adds(q, kind).None?
    ensures ContentEffect(b, q, kind, b')
  {
    forall i | 0 <= i < |b.content| ensures TextEffect(b, q, kind, i, PartText(b'.content[i], kind)) {
      assert TextEffect(b, p, kind, i, PartText(b'.content[i], kind));
      var was := PartText(b.content[i], kind);
      if was.Some? { assert was.value + "" == was.value; }
    }
  }

  lemma {:induction false} StillIndexed(b: Builder, b': Builder)
    requires Indexed(b) && b'.content == b.content
    requires forall id :: id in b'.text ==> id in b.text && b'.text[id] == b.text[id]
    requires forall id :: id in b'.reasoning ==> id in b.reasoning && b'.reasoning[id] == b.reasoning[id]
    ensures Indexed(b')
  {
  }

  lemma {:induction false} SameContent(b: Builder, p: TextPart, kind: Kind, b1: Builder, b2: Builder)
    requires ContentEffect(b, p, kind, b1) && b1.content == b2.content
    ensures ContentEffect(b, p, kind, b2)
  {
  }

  lemma {:induction false} PushEffect(b: Builder, p: TextPart, kind: Kind, part: Part)
    requires Indexed(b) && Starts(p, kind).None? && Adds(p, kind).None? && Ends(p, kind).None?
    requires !part.Text? && !part.Reasoning?
    ensures Effect(b, p, kind, Push(b, part)) && Effect(b, p, kind, b)
  {
  }

  lemma {:induction false} RecordEffect(b: Builder, p: TextPart, kind: Kind)
    requires Indexed(b) && !IsFraming(p)
    ensures Effect(b, p, kind, Record(b, p))
  {
    hide Effect, Indexed, Push, StartText, StartReasoning, AddText, AddReasoning, EndText, EndReasoning;
    match p
    case OutTextStart(id, metadata) => StartTextEffect(b, id, metadata, kind);
    case OutReasoningStart(id, metadata) => StartReasoningEffect(b, id, metadata, kind);
    case OutTextDelta(id, text, metadata) => AddTextEffect(b, id, text, metadata, kind);
    case OutTextEnd(id, metadata) => EndTextEffect(b, id, metadata, kind);
    case OutReasoningDelta(id, text, metadata) => AddReasoningEffect(b, id, text, metadata, kind);
    case OutReasoningEnd(id, metadata) => EndReasoningEffect(b, id, metadata, kind);
    case OutCall(call) => PushEffect(b, p, kind, CallContent(call));
    case OutResult(result) => PushEffect(b, p, kind, ResultContent(result));
    case OutToolError(failure) => PushEffect(b, p, kind, ErrorContent(failure));
    case OutApprovalResponse(response) => PushEffect(b, p, kind, ApprovalResponseContent(response));
    case OutSource(source) => PushEffect(b, p, kind, Source(source));
    case OutFile(file) => PushEffect(b, p, kind, FileContent(file));
    case OutReasoningFile(file) => PushEffect(b, p, kind, ReasoningFile(file));
    case OutCustom(k, metadata) => PushEffect(b, p, kind, Custom(k, metadata));
    case OutApproval(approval) => PushEffect(b, p, kind, ApprovalContent(approval));
    case _ => PushEffect(b, p, kind, Source(""));
  }

  lemma {:induction false} BlockNext(parts: seq<TextPart>, kind: Kind, s: nat, n: nat)
    requires 0 < n <= |parts|
    ensures var id := Adds(parts[n - 1], kind);
            var more := if id.Some? && OpenBlock(parts, kind, id.value, n - 1) == Some(s) then Delta(parts[n - 1]) else "";
            BlockText(parts, kind, s, n) == BlockText(parts, kind, s, n - 1) + more
  {
  }

  /** A block has no text before it starts. */
  lemma {:induction false} NotYetStarted(parts: seq<TextPart>, kind: Kind, s: nat, n: nat)
    requires n <= s < |parts|
    ensures BlockText(parts, kind, s, n) == ""
  {
    if n > 0 { NotYetStarted(parts, kind, s, n - 1); }
  }

  lemma {:induction false} BuiltNext(parts: seq<TextPart>, n: nat)
    requires 0 < n <= |parts|
    ensures Built(parts, n) == Record(Built(parts, n - 1), parts[n - 1])
  {
    hide Record;
  }

  lemma {:induction false} PlacesDiffer(parts: seq<TextPart>, s: nat, t: nat, n: nat, kind: Kind)
    requires s < n <= |parts| && t < n && NoFraming(parts)
    requires Starts(parts[s], kind).Some? && Starts(parts[t], kind).Some?
    ensures Place(parts, s) == Place(parts, t) <==> s == t
  {
    hide Place;
    if s < t { PlacesGrow(parts, s, t); }
    if t < s { PlacesGrow(parts, t, s); }
  }

  /** A part that is added to a block changes the text at its place only. */
  lemma {:induction false} KeepsText(parts: seq<TextPart>, kind: Kind, n: nat, s: nat, b: Builder, b': Builder)
    requires 0 < n <= |parts| && NoFraming(parts)
    requires Keeps(parts, kind, n - 1, b) && |b.content| == Place(parts, n - 1)
    requires ContentEffect(b, parts[n - 1], kind, b')
    requires s < n && Starts(parts[s], kind).Some?
    ensures Place(parts, s) < |b'.content| && PartText(b'.content[Place(parts, s)], kind) == Some(BlockText(parts, kind, s, n))
  {
    hide Place, OpenBlock;
    var id := Adds(parts[n - 1], kind);
    BlockNext(parts, kind, s, n);
    var was := BlockText(parts, kind, s, n - 1);
    assert was + "" == was;
    hide BlockText;
    if s == n - 1 {
      NotYetStarted(parts, kind, s, n - 1);
    } else {
      assert TextEffect(b, parts[n - 1], kind, Place(parts, s), PartText(b'.content[Place(parts, s)], kind));
      if id.Some? && id.value in Index(b, kind) {
        assert OpenAt(parts, kind, id.value, n - 1, Index(b, kind)[id.value]);
        PlacesDiffer(parts, s, OpenBlock(parts, kind, id.value, n - 1).value, n - 1, kind);
      }
    }
  }

  lemma {:induction false} KeepsIndex(parts: seq<TextPart>, kind: Kind, n: nat, b: Builder, b': Builder)
    requires 0 < n <= |parts|
    requires IndexKept(parts, kind, n - 1, b) && |b.content| == Place(parts, n - 1)
    requires IndexEffect(b, parts[n - 1], kind, b')
    ensures IndexKept(parts, kind, n, b')
  {
    hide Place;
    forall id
      ensures if id in Index(b', kind) then OpenAt(parts, kind, id, n, Index(b', kind)[id])
              else OpenBlock(parts, kind, id, n).None?
    {
      assert id in Index(b, kind) ==> OpenAt(parts, kind, id, n - 1, Index(b, kind)[id]);
    }
  }

  lemma {:induction false} KeepsOthers(parts: seq<TextPart>, kind: Kind, n: nat, b: Builder, b': Builder)
    requires 0 < n <= |parts|
    requires NoOtherText(parts, kind, n - 1, b) && |b.content| == Place(parts, n - 1)
    requires ContentEffect(b, parts[n - 1], kind, b')
    ensures NoOtherText(parts, kind, n, b')
  {
    hide Place;
    forall i | 0 <= i < |b'.content| && PartText(b'.content[i], kind).Some? ensures OfBlock(parts, kind, n, i) {
      if i < |b.content| {
        assert TextEffect(b, parts[n - 1], kind, i, PartText(b'.content[i], kind));
        assert OfBlock(parts, kind, n - 1, i);
        var s :| 0 <= s < n - 1 && Starts(parts[s], kind).Some? && Place(parts, s) == i;
        assert s < n && Starts(parts[s], kind).Some?;
      } else {
        assert Starts(parts[n - 1], kind).Some?;
      }
    }
  }

  /** The builder holds exactly the blocks of the parts it was given, with
      their texts, and its index maps are the open ones. */
  lemma {:induction false} BuilderKeeps(parts: seq<TextPart>, kind: Kind, n: nat)
    requires n <= |parts| && NoFraming(parts)
    ensures Keeps(parts, kind, n, Built(parts, n))
  {
    if n > 0 {
      BuilderKeeps(parts, kind, n - 1);
      BuiltNext(parts, n);
      var b, b' := Built(parts, n - 1), Built(parts, n);
      assert |b.content| == Place(parts, n - 1);
      hide Built, Record, Place;
      RecordEffect(b, parts[n - 1], kind);
      KeepsIndex(parts, kind, n, b, b');
      KeepsOthers(parts, kind, n, b, b');
      forall s | 0 <= s < n && Starts(parts[s], kind).Some?
        ensures Place(parts, s) < |b'.content| && PartText(b'.content[Place(parts, s)], kind) == Some(BlockText(parts, kind, s, n))
      {
        KeepsText(parts, kind, n, s, b, b');
      }
    }
  }

  // ----- The consumer's stream

  /** A part of an open step. */
  predicate IsPlain(p: TextPart) {
    !p.Start? && !p.StartStep? && !p.OutError? && !p.Abort? && !p.FinishStep? && !p.Finish?
  }

  /** The parts after the step's start. */
  function StepParts(out: seq<Event>): seq<TextPart> {
    if |out| <= 2 then []
    else
      var last := out[|out| - 1];
      StepParts(out[..|out| - 1]) + if last.Ok? then [last.value] else []
  }

  ghost predicate AllOpen(parts: seq<TextPart>) {
    forall i, kind :: 0 <= i < |parts| && Adds(parts[i], kind).Some? ==> DeltaIsOpen(parts, kind, i)
  }

  /** The block a delta belongs to is open. */
  predicate DeltaIsOpen(parts: seq<TextPart>, kind: Kind, i: nat)
    requires i < |parts| && Adds(parts[i], kind).Some?
  {
    OpenBlock(parts, kind, Adds(parts[i], kind).value, i).Some?
  }

  /** `consume` will fail. */
  predicate Fails(g: Gathered) { g.failed.Some? || g.firstError.Some? || (g.stopped && g.steps == []) }

  predicate OpensStep(out: seq<Event>) {
    |out| >= 2 && out[0] == Ok(Start) && out[1].Ok? && out[1].value.StartStep?
  }

  ghost predicate StepIsPlain(out: seq<Event>) {
    forall i :: 2 <= i < |out| ==> out[i].Ok? && IsPlain(out[i].value)
  }

  /** An open step: the builder of `consume` has its parts, the consumer's
      active blocks are the builder's, and every delta has its block. */
  ghost predicate Tracked(out: seq<Event>, text: set<string>, reasoning: set<string>) {
    && OpensStep(out)
    && StepIsPlain(out)
    && PartsTracked(StepParts(out), text, reasoning)
    && GatherAll(out, |out|) == Open(BuiltAll(StepParts(out)), out[1].value.warnings)
  }

  function BuiltAll(parts: seq<TextPart>): Builder { Built(parts, |parts|) }

  function Open(b: Builder, warnings: seq<string>): Gathered { Gathered([], b, warnings, None, None, None, None, false) }

  ghost predicate PartsTracked(parts: seq<TextPart>, text: set<string>, reasoning: set<string>) {
    NoFraming(parts) && AllOpen(parts) && BuiltAll(parts).text.Keys == text && BuiltAll(parts).reasoning.Keys == reasoning
  }

  ghost predicate Agree(r: Run) {
    || Fails(GatherAll(r.out, |r.out|))
    || (!r.done && !r.con.started && r.out == [Ok(Start)] && r.con.activeText == {} && r.con.activeReasoning == {})
    || (!r.done && r.con.started && Tracked(r.out, r.con.activeText, r.con.activeReasoning))
  }

  lemma {:induction false} GatherPrefix(out: seq<Event>, more: seq<Event>, n: nat)
    requires n <= |out|
    ensures GatherAll(out + more, n) == GatherAll(out, n)
  {
    hide Gather;
    if n > 0 { GatherPrefix(out, more, n - 1); }
  }

  lemma {:induction false} GatherNext(out: seq<Event>, e: Event)
    ensures GatherAll(out + [e], |out| + 1) == Gather(GatherAll(out, |out|), e)
  {
    hide Gather;
    GatherPrefix(out, [e], |out|);
  }

  lemma {:induction false} FailureStays(out: seq<Event>, more: seq<Event>, n: nat)
    requires |out| <= n <= |out| + |more| && Fails(GatherAll(out, |out|))
    ensures Fails(GatherAll(out + more, n))
  {
    hide Gather, Fails;
    if n == |out| {
      GatherPrefix(out, more, n);
    } else {
      FailureStays(out, more, n - 1);
      FailsOn(GatherAll(out + more, n - 1), (out + more)[n - 1]);
    }
  }

  lemma {:induction false} FailsOn(g: Gathered, e: Event)
    requires Fails(g)
    ensures Fails(Gather(g, e))
  {
    hide Record, Messages;
  }

  lemma {:induction false} BuiltPrefix(parts: seq<TextPart>, p: TextPart, n: nat)
    requires n <= |parts|
    ensures Built(parts + [p], n) == Built(parts, n)
  {
    hide Record;
    if n > 0 { BuiltPrefix(parts, p, n - 1); }
  }

  lemma {:induction false} OpenPrefix(parts: seq<TextPart>, p: TextPart, kind: Kind, id: string, n: nat)
    requires n <= |parts|
    ensures OpenBlock(parts + [p], kind, id, n) == OpenBlock(parts, kind, id, n)
  {
    if n > 0 { OpenPrefix(parts, p, kind, id, n - 1); }
  }

  /** An id is active exactly when it has an open block. */
  lemma {:induction false} ActiveIsOpen(parts: seq<TextPart>, kind: Kind, n: nat, id: string)
    requires n <= |parts| && NoFraming(parts)
    ensures id in Index(Built(parts, n), kind) <==> OpenBlock(parts, kind, id, n).Some?
  {
    BuilderKeeps(parts, kind, n);
    hide Built, OpenBlock, TextsKept, NoOtherText, Indexed;
  }

  lemma {:induction false} AllOpenNext(parts: seq<TextPart>, p: TextPart)
    requires NoFraming(parts) && AllOpen(parts)
    requires forall kind: Kind :: Adds(p, kind).Some? ==> Adds(p, kind).value in Index(Built(parts, |parts|), kind)
    ensures AllOpen(parts + [p])
  {
    var all := parts + [p];
    forall i, kind | 0 <= i < |all| && Adds(all[i], kind).Some? ensures DeltaIsOpen(all, kind, i) {
      var id := Adds(all[i], kind).value;
      OpenPrefix(parts, p, kind, id, i);
      if i < |parts| {
        assert DeltaIsOpen(parts, kind, i);
      } else {
        ActiveIsOpen(parts, kind, |parts|, id);
      }
    }
  }

  /** The active ids of a kind after a part. */
  function ActiveAfter(active: set<string>, p: TextPart, kind: Kind): set<string> {
    active + (if Starts(p, kind).Some? then {Starts(p, kind).value} else {})
      - (if Ends(p, kind).Some? then {Ends(p, kind).value} else {})
  }

  lemma {:induction false} Keys(b: Builder, p: TextPart, kind: Kind)
    requires Indexed(b) && !IsFraming(p)
    ensures Index(Record(b, p), kind).Keys == ActiveAfter(Index(b, kind).Keys, p, kind)
  {
    hide Record, Indexed;
    RecordEffect(b, p, kind);
    var after := Index(Record(b, p), kind);
    assert forall id :: id in after <==> id in ActiveAfter(Index(b, kind).Keys, p, kind);
  }

  lemma {:induction false} PartsTrackedNext(parts: seq<TextPart>, text: set<string>, reasoning: set<string>, p: TextPart)
    requires PartsTracked(parts, text, reasoning) && !IsFraming(p)
    requires Adds(p, TextKind).Some? ==> Adds(p, TextKind).value in text
    requires Adds(p, ReasoningKind).Some? ==> Adds(p, ReasoningKind).value in reasoning
    ensures PartsTracked(parts + [p], ActiveAfter(text, p, TextKind), ActiveAfter(reasoning, p, ReasoningKind))
  {
    hide Built, Record, AllOpen, IndexKept, TextsKept, NoOtherText, Indexed, ActiveAfter;
    var b := BuiltAll(parts);
    AllOpenNext(parts, p);
    BuilderKeeps(parts, TextKind, |parts|);
    BuiltAllNext(parts, p);
    Keys(b, p, TextKind);
    Keys(b, p, ReasoningKind);
  }

  lemma {:induction false} BuiltAllNext(parts: seq<TextPart>, p: TextPart)
    ensures BuiltAll(parts + [p]) == Record(BuiltAll(parts), p)
  {
    hide Record;
    BuiltPrefix(parts, p, |parts|);
    BuiltNext(parts + [p], |parts| + 1);
  }

  /** The step goes on with one more part; a delta needs its block. */
  lemma {:induction false} TrackPart(out: seq<Event>, text: set<string>, reasoning: set<string>, p: TextPart)
    requires Tracked(out, text, reasoning) && IsPlain(p)
    requires Adds(p, TextKind).Some? ==> Adds(p, TextKind).value in text
    requires Adds(p, ReasoningKind).Some? ==> Adds(p, ReasoningKind).value in reasoning
    ensures Tracked(out + [Ok(p)], ActiveAfter(text, p, TextKind), ActiveAfter(reasoning, p, ReasoningKind))
  {
    hide BuiltAll, Record, Gather, GatherAll, StepParts, PartsTracked, ActiveAfter, Adds;
    StepPartsNext(out, p);
    PartsTrackedNext(StepParts(out), text, reasoning, p);
    BuiltAllNext(StepParts(out), p);
    GatherNext(out, Ok(p));
    GatherPlain(GatherAll(out, |out|), p);
    assert StepIsPlain(out + [Ok(p)]);
  }

  lemma {:induction false} StepPartsNext(out: seq<Event>, p: TextPart)
    requires |out| >= 2
    ensures StepParts(out + [Ok(p)]) == StepParts(out) + [p]
  {
    assert (out + [Ok(p)])[..|out|] == out;
  }

  lemma {:induction false} GatherPlain(g: Gathered, p: TextPart)
    requires !g.stopped && IsPlain(p)
    ensures Gather(g, Ok(p)) == g.(builder := Record(g.builder, p))
  {
    hide Record;
  }

  lemma {:induction false} ErrorFails(out: seq<Event>, e: AiError)
    requires !GatherAll(out, |out|).stopped || Fails(GatherAll(out, |out|))
    ensures Fails(GatherAll(out + [Ok(OutError(e))], |out| + 1))
  {
    GatherNext(out, Ok(OutError(e)));
  }

  /** A part of no block. */
  predicate IsOther(p: TextPart) {
    IsPlain(p) && forall kind: Kind :: Starts(p, kind).None? && Adds(p, kind).None? && Ends(p, kind).None?
  }

  lemma {:induction false} TrackOther(out: seq<Event>, text: set<string>, reasoning: set<string>, p: TextPart)
    requires Tracked(out, text, reasoning) && IsOther(p)
    ensures Tracked(out + [Ok(p)], text, reasoning)
  {
    hide Tracked;
    TrackPart(out, text, reasoning, p);
    assert ActiveAfter(text, p, TextKind) == text && ActiveAfter(reasoning, p, ReasoningKind) == reasoning;
  }

  ghost predicate GoesOn(out: seq<Event>, text: set<string>, reasoning: set<string>) {
    Fails(GatherAll(out, |out|)) || Tracked(out, text, reasoning)
  }

  /** A part of an open block, or one followed by the error that it has none. */
  lemma {:induction false} TrackBlock(out: seq<Event>, text: set<string>, reasoning: set<string>, p: TextPart, ok: bool, e: AiError)
    requires Tracked(out, text, reasoning) && IsPlain(p)
    requires ok && Adds(p, TextKind).Some? ==> Adds(p, TextKind).value in text
    requires ok && Adds(p, ReasoningKind).Some? ==> Adds(p, ReasoningKind).value in reasoning
    ensures GoesOn(out + [Ok(p)] + if ok then [] else [Ok(OutError(e))],
                   ActiveAfter(text, p, TextKind), ActiveAfter(reasoning, p, ReasoningKind))
  {
    hide ActiveAfter, Gather, Record, PartsTracked;
    var next := out + [Ok(p)];
    if ok {
      TrackPart(out, text, reasoning, p);
      assert next + [] == next;
    } else {
      GatherNext(out, Ok(p));
      GatherPlain(GatherAll(out, |out|), p);
      ErrorFails(next, e);
    }
  }

  lemma {:induction false} HandleBlock(choice: ToolChoice, a: Answers, con: Consumer, part: StreamPart, out: seq<Event>)
    requires Tracked(out, con.activeText, con.activeReasoning) && IsBlockPart(part)
    ensures var (con', events) := Handle(choice, a, con, part);
            GoesOn(out + events, con'.activeText, con'.activeReasoning)
  {
    hide Tracked, Fails, GatherAll;
    var (con', events) := Handle(choice, a, con, part);
    var text, reasoning, e := con.activeText, con.activeReasoning, Raise(part);
    if events == [] {
      assert out + events == out;
    } else {
      var p := events[0].value;
      var ok := |events| == 1;
      assert events == [Ok(p)] + if ok then [] else [Ok(OutError(e))];
      TrackBlock(out, text, reasoning, p, ok, e);
      assert con'.activeText == ActiveAfter(text, p, TextKind) && con'.activeReasoning == ActiveAfter(reasoning, p, ReasoningKind);
      assert out + events == out + [Ok(p)] + if ok then [] else [Ok(OutError(e))];
    }
  }

  /** The error of a part whose block is not open. */
  function Raise(part: StreamPart): AiError {
    match part
    case TextDelta(id, _, _) => MissingText(id).value.error
    case TextEnd(id, _) => MissingText(id).value.error
    case ReasoningDelta(id, _, _) => MissingReasoning(id).value.error
    case ReasoningEnd(id, _) => MissingReasoning(id).value.error
    case _ => NO_OUTPUT
  }

  predicate IsBlockPart(part: StreamPart) {
    || part.TextStart? || part.TextDelta? || part.TextEnd?
    || part.ReasoningStart? || part.ReasoningDelta? || part.ReasoningEnd?
  }

  /** Up to two parts of no block, or an error. */
  predicate AreOther(events: seq<Event>) {
    && |events| <= 2
    && (forall i :: 0 <= i < |events| ==> events[i].Ok?)
    && (|events| > 0 ==> IsOther(events[0].value) || (|events| == 1 && events[0].value.OutError?))
    && (|events| > 1 ==> IsOther(events[1].value))
  }

  lemma {:induction false} TrackOthers(out: seq<Event>, text: set<string>, reasoning: set<string>, events: seq<Event>)
    requires Tracked(out, text, reasoning) && AreOther(events)
    ensures GoesOn(out + events, text, reasoning)
  {
    assert !GatherAll(out, |out|).stopped;
    hide Tracked, GatherAll, Gather, Fails;
    if events == [] {
      assert out + events == out;
    } else if events[0].value.OutError? {
      ErrorFails(out, events[0].value.error);
      assert out + events == out + [events[0]];
    } else {
      TrackOther(out, text, reasoning, events[0].value);
      if |events| == 2 {
        TrackOther(out + [events[0]], text, reasoning, events[1].value);
        assert out + events == out + [events[0]] + [events[1]];
      } else {
        assert out + events == out + [events[0]];
      }
    }
  }

  /** Events of no block. */
  lemma {:induction false} HandleOther(choice: ToolChoice, a: Answers, con: Consumer, part: StreamPart, out: seq<Event>)
    requires Tracked(out, con.activeText, con.activeReasoning) && !IsBlockPart(part)
    ensures var (con', events) := Handle(choice, a, con, part);
            GoesOn(out + events, con'.activeText, con'.activeReasoning)
  {
    hide *;
    OtherEvents(choice, a, con, part);
    TrackOthers(out, con.activeText, con.activeReasoning, Handle(choice, a, con, part).1);
  }

  lemma {:induction false} OtherEvents(choice: ToolChoice, a: Answers, con: Consumer, part: StreamPart)
    requires !IsBlockPart(part)
    ensures var (con', events) := Handle(choice, a, con, part);
            && con'.activeText == con.activeText && con'.activeReasoning == con.activeReasoning && AreOther(events)
  {
    hide ProviderResultPart, InvalidCallError, Violates;
    match part
    case Call(raw) => CallEvents(choice, a, con, raw);
    case ResultPart(result) => ResultIsOther(result, con.calls);
    case _ =>
  }

  lemma {:induction false} CallEvents(choice: ToolChoice, a: Answers, con: Consumer, raw: RawToolCall)
    ensures AreOther(Handle(choice, a, con, Call(raw)).1)
  {
  }

  lemma {:induction false} ResultIsOther(result: ToolResult, calls: map<string, ToolCall>)
    ensures IsOther(ProviderResultPart(result, calls))
  {
  }

  lemma {:induction false} OpenStep(r: Run, warnings: seq<string>)
    requires r.out == [Ok(Start)]
    ensures Tracked(r.out + [Ok(StartStep(warnings))], {}, {})
  {
    var out := r.out + [Ok(StartStep(warnings))];
    GatherNext(r.out, Ok(StartStep(warnings)));
    assert GatherAll(r.out, 1) == Gather(NOTHING_GATHERED, Ok(Start));
    assert StepParts(out) == [] && BuiltAll([]) == EMPTY_BUILDER;
  }

  lemma {:induction false} DeliverAgrees(choice: ToolChoice, r: Run, d: Delivery)
    requires Agree(r)
    ensures Agree(Deliver(choice, r, d))
  {
    if Fails(GatherAll(r.out, |r.out|)) {
      FailedStays(choice, r, d);
    } else if d.AbortSeen? || d.item.Err? {
      EndAgrees(choice, r, d);
    } else {
      PartAgrees(choice, d.answers, r, d.item.value);
    }
  }

  lemma {:induction false} FailedStays(choice: ToolChoice, r: Run, d: Delivery)
    requires Fails(GatherAll(r.out, |r.out|))
    ensures Agree(Deliver(choice, r, d))
  {
    hide Fails, GatherAll, Tracked, Deliver;
    var r' := Deliver(choice, r, d);
    DeliverExtends(choice, r, d);
    FailureStays(r.out, r'.out[|r.out|..], |r'.out|);
    assert r.out + r'.out[|r.out|..] == r'.out;
  }

  lemma {:induction false} EndAgrees(choice: ToolChoice, r: Run, d: Delivery)
    requires Agree(r) && !r.done && (d.AbortSeen? || d.item.Err?)
    ensures Agree(Deliver(choice, r, d))
  {
    hide Fails, GatherAll, Tracked;
    EndFails(r, Deliver(choice, r, d).out[|r.out|]);
  }

  lemma {:induction false} PartAgrees(choice: ToolChoice, a: Answers, r: Run, part: StreamPart)
    requires Agree(r) && !r.done && !Fails(GatherAll(r.out, |r.out|))
    ensures Agree(Deliver(choice, r, Got(Ok(part), a)))
  {
    hide Tracked, Handle, Fails, GatherAll;
    var (con, start) := Opened(r.con, part);
    if part.StreamStart? {
      StartChangesNothing(choice, a, r, part);
    } else {
      if r.con.started { assert r.out + start == r.out; } else { OpenStep(r, r.con.warnings); }
      if IsBlockPart(part) { HandleBlock(choice, a, con, part, r.out + start); } else { HandleOther(choice, a, con, part, r.out + start); }
      OnlyStarted(choice, a, con, part);
    }
  }

  lemma {:induction false} StartChangesNothing(choice: ToolChoice, a: Answers, r: Run, part: StreamPart)
    requires !r.done && part.StreamStart?
    ensures var r' := Deliver(choice, r, Got(Ok(part), a));
            && r'.out == r.out && !r'.done && r'.con.started == r.con.started
            && r'.con.activeText == r.con.activeText && r'.con.activeReasoning == r.con.activeReasoning
  {
  }

  lemma {:induction false} OnlyStarted(choice: ToolChoice, a: Answers, con: Consumer, part: StreamPart)
    ensures Handle(choice, a, con, part).0.started == con.started
  {
  }

  lemma {:induction false} DeliverExtends(choice: ToolChoice, r: Run, d: Delivery)
    ensures |r.out| <= |Deliver(choice, r, d).out| && Deliver(choice, r, d).out[..|r.out|] == r.out
  {
    hide Handle;
  }

  lemma {:induction false} EndFails(r: Run, e: Event)
    requires Agree(r) && (e.Err? || e.value.Abort?)
    ensures Fails(GatherAll(r.out + [e], |r.out| + 1))
  {
    GatherNext(r.out, e);
    if r.out == [Ok(Start)] { assert GatherAll(r.out, 1) == Gather(NOTHING_GATHERED, Ok(Start)); }
  }

  /** At every point of a run, `consume` will fail or its builder has the parts
      of the open step. */
  lemma {:induction false} RunIsTracked(choice: ToolChoice, ds: seq<Delivery>, n: nat)
    requires n <= |ds|
    ensures Agree(AfterDeliveries(choice, ds, n))
  {
    hide Deliver, Agree;
    if n > 0 {
      RunIsTracked(choice, ds, n - 1);
      DeliverAgrees(choice, AfterDeliveries(choice, ds, n - 1), ds[n - 1]);
    } else {
      AgreeAtStart(choice, ds);
    }
  }

  lemma {:induction false} AgreeAtStart(choice: ToolChoice, ds: seq<Delivery>)
    ensures Agree(AfterDeliveries(choice, ds, 0))
  {
  }

  // ----- The active blocks, also after errors

  /** `consume` is still reading, and the blocks open in its builder are these. */
  ghost predicate Linked(out: seq<Event>, text: set<string>, reasoning: set<string>) {
    var g := GatherAll(out, |out|);
    !g.stopped && Indexed(g.builder) && g.builder.text.Keys == text && g.builder.reasoning.Keys == reasoning
  }

  lemma {:induction false} LinkPart(out: seq<Event>, text: set<string>, reasoning: set<string>, p: TextPart)
    requires Linked(out, text, reasoning) && IsPlain(p)
    ensures Linked(out + [Ok(p)], ActiveAfter(text, p, TextKind), ActiveAfter(reasoning, p, ReasoningKind))
  {
    hide GatherAll, Gather, Record, Indexed, ActiveAfter;
    var g := GatherAll(out, |out|);
    GatherNext(out, Ok(p));
    GatherPlain(g, p);
    RecordEffect(g.builder, p, TextKind);
    Keys(g.builder, p, TextKind);
    Keys(g.builder, p, ReasoningKind);
  }

  lemma {:induction false} LinkError(out: seq<Event>, text: set<string>, reasoning: set<string>, e: Event)
    requires Linked(out, text, reasoning)
    requires if e.Ok? then e.value.OutError? else IsRecoverable(e.error)
    ensures Linked(out + [e], text, reasoning)
  {
    hide GatherAll, Indexed;
    GatherNext(out, e);
  }

  lemma {:induction false} LinkBlock(choice: ToolChoice, a: Answers, con: Consumer, part: StreamPart, out: seq<Event>)
    requires Linked(out, con.activeText, con.activeReasoning) && IsBlockPart(part)
    ensures var (con', events) := Handle(choice, a, con, part);
            Linked(out + events, con'.activeText, con'.activeReasoning)
  {
    hide Linked;
    var (con', events) := Handle(choice, a, con, part);
    var text, reasoning := con'.activeText, con'.activeReasoning;
    if events == [] {
      assert out + events == out;
    } else {
      LinkPart(out, con.activeText, con.activeReasoning, events[0].value);
      assert text == ActiveAfter(con.activeText, events[0].value, TextKind);
      assert reasoning == ActiveAfter(con.activeReasoning, events[0].value, ReasoningKind);
      if |events| == 1 {
        assert out + events == out + [events[0]];
      } else {
        LinkError(out + [events[0]], text, reasoning, events[1]);
        assert out + events == out + [events[0]] + [events[1]];
      }
    }
  }

  lemma {:induction false} LinkOther(out: seq<Event>, text: set<string>, reasoning: set<string>, p: TextPart)
    requires Linked(out, text, reasoning) && IsOther(p)
    ensures Linked(out + [Ok(p)], text, reasoning)
  {
    hide Linked;
    LinkPart(out, text, reasoning, p);
    assert ActiveAfter(text, p, TextKind) == text && ActiveAfter(reasoning, p, ReasoningKind) == reasoning;
  }

  lemma {:induction false} LinkOthers(out: seq<Event>, text: set<string>, reasoning: set<string>, events: seq<Event>)
    requires Linked(out, text, reasoning) && AreOther(events)
    ensures Linked(out + events, text, reasoning)
  {
    hide Linked;
    if events == [] {
      assert out + events == out;
    } else if events[0].value.OutError? {
      LinkError(out, text, reasoning, events[0]);
      assert out + events == out + [events[0]];
    } else {
      LinkOther(out, text, reasoning, events[0].value);
      if |events| == 2 {
        LinkOther(out + [events[0]], text, reasoning, events[1].value);
        assert out + events == out + [events[0]] + [events[1]];
      } else {
        assert out + events == out + [events[0]];
      }
    }
  }

  /** Until the run has returned; no block is active before the step starts. */
  ghost predicate BlocksAgree(r: Run) {
    !r.done ==>
      && Linked(r.out, r.con.activeText, r.con.activeReasoning)
      && (!r.con.started ==> r.con.activeText == {} && r.con.activeReasoning == {})
  }

  lemma {:induction false} LinkStart(r: Run)
    requires BlocksAgree(r) && !r.done && !r.con.started
    ensures Linked(r.out + [Ok(StartStep(r.con.warnings))], r.con.activeText, r.con.activeReasoning)
  {
    hide GatherAll;
    GatherNext(r.out, Ok(StartStep(r.con.warnings)));
  }

  lemma {:induction false} PartLinks(choice: ToolChoice, a: Answers, r: Run, part: StreamPart)
    requires BlocksAgree(r) && !r.done
    ensures BlocksAgree(Deliver(choice, r, Got(Ok(part), a)))
  {
    hide Linked, Handle;
    var (con, start) := Opened(r.con, part);
    if part.StreamStart? {
      StartChangesNothing(choice, a, r, part);
    } else {
      if r.con.started { assert r.out + start == r.out; } else { LinkStart(r); }
      if IsBlockPart(part) {
        LinkBlock(choice, a, con, part, r.out + start);
      } else {
        OtherEvents(choice, a, con, part);
        LinkOthers(r.out + start, con.activeText, con.activeReasoning, Handle(choice, a, con, part).1);
      }
      OnlyStarted(choice, a, con, part);
    }
  }

  lemma {:induction false} DeliverLinks(choice: ToolChoice, r: Run, d: Delivery)
    requires BlocksAgree(r)
    ensures BlocksAgree(Deliver(choice, r, d))
  {
    hide Linked;
    if !r.done {
      match d
      case AbortSeen(_) =>
      case Got(Err(e), _) => if IsRecoverable(e) { LinkError(r.out, r.con.activeText, r.con.activeReasoning, Err(e)); }
      case Got(Ok(part), a) => PartLinks(choice, a, r, part);
    }
  }

  lemma {:induction false} LinkedAtStart()
    ensures Linked([Ok(Start)], {}, {})
  {
    assert GatherAll([Ok(Start)], 1) == Gather(NOTHING_GATHERED, Ok(Start));
  }

  /** At every point of every run, whatever errors came before, the consumer's
      active blocks are those open in the builder that `consume` fills. */
  lemma {:induction false} ActiveBlocksAgree(choice: ToolChoice, ds: seq<Delivery>, n: nat)
    requires n <= |ds|
    ensures BlocksAgree(AfterDeliveries(choice, ds, n))
  {
    hide Deliver, Linked;
    if n > 0 {
      ActiveBlocksAgree(choice, ds, n - 1);
      DeliverLinks(choice, AfterDeliveries(choice, ds, n - 1), ds[n - 1]);
    } else {
      LinkedAtStart();
    }
  }

  lemma {:induction false} StepPartsAre(out: seq<Event>)
    requires |out| >= 2 && StepIsPlain(out)
    ensures |StepParts(out)| == |out| - 2
    ensures forall i :: 0 <= i < |out| - 2 ==> out[i + 2] == Ok(StepParts(out)[i])
  {
    if |out| > 2 { StepPartsAre(out[..|out| - 1]); }
  }

  /** A stream of one finished step with these parts. */
  ghost predicate IsStep(out: seq<Event>, parts: seq<TextPart>) {
    && |out| == |parts| + 4
    && OpensStep(out)
    && (forall i :: 0 <= i < |parts| ==> out[i + 2] == Ok(parts[i]) && IsPlain(parts[i]))
    && out[|parts| + 2].Ok? && out[|parts| + 2].value.FinishStep?
    && out[|parts| + 3].Ok? && out[|parts| + 3].value.Finish?
  }

  /** Every delta is part of a block, every block has a part of the content
      that holds its deltas in order, no two the same one, and all text of the
      content is that of blocks. */
  ghost predicate TextIsKept(content: seq<Part>, parts: seq<TextPart>, kind: Kind) {
    && (forall i :: 0 <= i < |parts| && Adds(parts[i], kind).Some? ==> DeltaIsOpen(parts, kind, i))
    && (forall s :: 0 <= s < |parts| && Starts(parts[s], kind).Some? ==>
          Place(parts, s) < |content| && PartText(content[Place(parts, s)], kind) == Some(BlockText(parts, kind, s, |parts|)))
    && (forall s, t :: 0 <= s < t < |parts| && Starts(parts[s], kind).Some? && Starts(parts[t], kind).Some? ==>
          Place(parts, s) != Place(parts, t))
    && (forall i :: 0 <= i < |content| && PartText(content[i], kind).Some? ==> OfBlock(parts, kind, |parts|, i))
  }

  lemma {:induction false} TrackedIsKept(parts: seq<TextPart>, kind: Kind)
    requires NoFraming(parts) && AllOpen(parts)
    ensures TextIsKept(BuiltAll(parts).content, parts, kind)
  {
    hide Built, Place, BlockText, OpenBlock, Indexed, IndexKept;
    BuilderKeeps(parts, kind, |parts|);
    forall s, t | 0 <= s < t < |parts| && Starts(parts[s], kind).Some? && Starts(parts[t], kind).Some?
      ensures Place(parts, s) != Place(parts, t)
    {
      PlacesDiffer(parts, s, t, |parts|, kind);
    }
  }

  /** When `consume` succeeds on a text stream, it recorded one step whose
      content holds all text and reasoning that was streamed, block by block. */
  lemma {:induction false} NothingLost(choice: ToolChoice, ds: seq<Delivery>) returns (parts: seq<TextPart>)
    requires ConsumeSpec(Stream(choice, ds)).Ok?
    ensures IsStep(Stream(choice, ds), parts)
    ensures |ConsumeSpec(Stream(choice, ds)).value.steps| == 1
    ensures var step := ConsumeSpec(Stream(choice, ds)).value.steps[0];
            step.messages == Messages(step.content) && forall kind :: TextIsKept(step.content, parts, kind)
  {
    hide *;
    var r := AfterDeliveries(choice, ds, |ds|);
    StreamEnds(choice, ds);
    parts := StepParts(r.out);
    StepIsStreamed(r.out, r.con, parts);
    FinishStepResult(r.out, r.con, parts);
    forall kind: Kind ensures TextIsKept(BuiltAll(parts).content, parts, kind) {
      TrackedIsKept(parts, kind);
    }
  }

  lemma {:induction false} StepIsStreamed(out: seq<Event>, con: Consumer, parts: seq<TextPart>)
    requires Tracked(out, con.activeText, con.activeReasoning) && parts == StepParts(out)
    ensures IsStep(out + [Ok(FinishStep(con.reason, con.usage)), Ok(Finish(con.reason, con.usage))], parts)
    ensures NoFraming(parts) && AllOpen(parts)
  {
    StepPartsAre(out);
    hide StepParts, AllOpen, NoFraming, GatherAll, BuiltAll;
    var all := out + [Ok(FinishStep(con.reason, con.usage)), Ok(Finish(con.reason, con.usage))];
    forall i | 0 <= i < |parts| ensures all[i + 2] == Ok(parts[i]) && IsPlain(parts[i]) { assert all[i + 2] == out[i + 2]; }
  }

  /** A stream that `consume` succeeds on ran its step to the end. */
  lemma {:induction false} StreamEnds(choice: ToolChoice, ds: seq<Delivery>)
    requires ConsumeSpec(Stream(choice, ds)).Ok?
    ensures var r := AfterDeliveries(choice, ds, |ds|);
            && Tracked(r.out, r.con.activeText, r.con.activeReasoning)
            && Stream(choice, ds) == r.out + [Ok(FinishStep(r.con.reason, r.con.usage)), Ok(Finish(r.con.reason, r.con.usage))]
  {
    hide *;
    RunIsTracked(choice, ds, |ds|);
    NotFailed(choice, ds);
    OutputOpensStep(choice, ds);
    StreamOfRun(choice, ds);
    NoFailure(Stream(choice, ds));
    RunEnds(AfterDeliveries(choice, ds, |ds|));
  }

  function Closed(r: Run): seq<Event> { if r.done then r.out else r.out + EndOfStream(r.con) }

  lemma {:induction false} StreamOfRun(choice: ToolChoice, ds: seq<Delivery>)
    ensures Stream(choice, ds) == Closed(AfterDeliveries(choice, ds, |ds|))
  {
    hide AfterDeliveries;
  }

  lemma {:induction false} NoFailure(events: seq<Event>)
    requires ConsumeSpec(events).Ok?
    ensures !Fails(GatherAll(events, |events|))
  {
    hide GatherAll;
  }

  lemma {:induction false} RunEnds(r: Run)
    requires Agree(r) && !Fails(GatherAll(r.out, |r.out|)) && (r.con.terminal || r.con.sawOutput ==> r.con.started)
    requires !Fails(GatherAll(Closed(r), |Closed(r)|))
    ensures Tracked(r.out, r.con.activeText, r.con.activeReasoning)
    ensures Closed(r) == r.out + [Ok(FinishStep(r.con.reason, r.con.usage)), Ok(Finish(r.con.reason, r.con.usage))]
  {
    hide Tracked, Fails, GatherAll;
    NotStopped(r);
    if !r.con.terminal && !r.con.sawOutput {
      assert Closed(r) == r.out + [Ok(OutError(NO_OUTPUT))];
      ErrorFails(r.out, NO_OUTPUT);
    }
  }

  lemma {:induction false} NotStopped(r: Run)
    requires Agree(r) && !Fails(GatherAll(r.out, |r.out|))
    ensures !r.done && !GatherAll(r.out, |r.out|).stopped
  {
    if r.out == [Ok(Start)] { assert GatherAll(r.out, 1) == Gather(NOTHING_GATHERED, Ok(Start)); }
  }

  lemma {:induction false} OutputOpensStep(choice: ToolChoice, ds: seq<Delivery>)
    ensures var con := AfterDeliveries(choice, ds, |ds|).con; con.terminal || con.sawOutput ==> con.started
  {
    TextStreamProofs.AfterFramed(choice, ds, |ds|);
    hide AfterDeliveries;
  }

  lemma {:induction false} NotFailed(choice: ToolChoice, ds: seq<Delivery>)
    requires ConsumeSpec(Stream(choice, ds)).Ok?
    ensures var r := AfterDeliveries(choice, ds, |ds|); !Fails(GatherAll(r.out, |r.out|))
  {
    var r := AfterDeliveries(choice, ds, |ds|);
    hide AfterDeliveries, GatherAll;
    var more := if r.done then [] else EndOfStream(r.con);
    assert r.out + more == Stream(choice, ds) by { assert r.out + [] == r.out; }
    if Fails(GatherAll(r.out, |r.out|)) { FailureStays(r.out, more, |r.out + more|); }
  }

  lemma {:induction false} FinishStepResult(out: seq<Event>, con: Consumer, parts: seq<TextPart>)
    requires Tracked(out, con.activeText, con.activeReasoning) && parts == StepParts(out)
    ensures var all := out + [Ok(FinishStep(con.reason, con.usage)), Ok(Finish(con.reason, con.usage))];
            var content := BuiltAll(parts).content;
            ConsumeSpec(all) ==
            Ok(Consumed([StepRecord(content, Messages(content), con.reason, out[1].value.warnings)], con.usage))
  {
    var finishStep, finish := Ok(FinishStep(con.reason, con.usage)), Ok(Finish(con.reason, con.usage));
    hide BuiltAll, Messages, PartsTracked, StepParts, GatherAll, StepIsPlain, Record;
    GatherNext(out, finishStep);
    GatherNext(out + [finishStep], finish);
    assert out + [finishStep, finish] == out + [finishStep] + [finish];
    var content, warnings := BuiltAll(parts).content, out[1].value.warnings;
    var g := Gather(Open(BuiltAll(parts), warnings), finishStep);
    assert g.steps == [StepRecord(content, Messages(content), con.reason, warnings)];
    assert Gather(g, finish) == g.(totalUsage := Some(con.usage), stopped := true);
  }
}
