/** What the content of a streamed step holds, by the places of its parts. */
module StepContent {
  import opened Wrappers
  import opened Content
  import opened ResponseMessages
  import opened TextStream
  import opened StreamBlocks
  import ConsumeOutcome

  /** The block that a part adds to or ends. */
  function Touches(p: TextPart, kind: Kind): Option<string> {
    if Adds(p, kind).Some? then Adds(p, kind) else Ends(p, kind)
  }

  function MetadataOf(p: TextPart): Metadata {
    match p
    case OutTextStart(_, metadata) => metadata
    case OutTextDelta(_, _, metadata) => metadata
    case OutTextEnd(_, metadata) => metadata
    case OutReasoningStart(_, metadata) => metadata
    case OutReasoningDelta(_, _, metadata) => metadata
    case OutReasoningEnd(_, metadata) => metadata
    case _ => None
  }

  /** The metadata of the block started at `s`: the last that any of its parts has. */
  function BlockMetadata(parts: seq<TextPart>, kind: Kind, s: nat, n: nat): Metadata
    requires s < n <= |parts|
    decreases n
  {
    if n == s + 1 then MetadataOf(parts[s])
    else
      var p := parts[n - 1];
      var id := Touches(p, kind);
      if id.Some? && OpenBlock(parts, kind, id.value, n - 1) == Some(s) && MetadataOf(p).Some? then MetadataOf(p)
      else BlockMetadata(parts, kind, s, n - 1)
  }

  /** The parts that leave something in the content. */
  predicate Leaves(p: TextPart) {
    match p
    case OutTextStart(_, _) => true
    case OutReasoningStart(_, _) => true
    case OutResult(result) => result.preliminary != Some(true)
    case _ =>
      p.OutCall? || p.OutToolError? || p.OutApproval? || p.OutApprovalResponse? || p.OutSource? || p.OutFile? ||
      p.OutReasoningFile? || p.OutCustom?
  }

  /** What the part at `s` has left after `n` parts: its block with all of its
      deltas, or itself. */
  predicate HasLeft(parts: seq<TextPart>, n: nat, s: nat, left: Part)
    requires s < n <= |parts|
  {
    match parts[s]
    case OutTextStart(_, _) => left == Text(BlockText(parts, TextKind, s, n), BlockMetadata(parts, TextKind, s, n))
    case OutReasoningStart(_, _) =>
      left == Reasoning(BlockText(parts, ReasoningKind, s, n), BlockMetadata(parts, ReasoningKind, s, n))
    case OutCall(call) => left == CallContent(call)
    case OutResult(result) => left == ResultContent(result)
    case OutToolError(failure) => left == ErrorContent(failure)
    case OutApproval(approval) => left == ApprovalContent(approval)
    case OutApprovalResponse(response) => left == ApprovalResponseContent(response)
    case OutSource(source) => left == Source(source)
    case OutFile(file) => left == FileContent(file)
    case OutReasoningFile(file) => left == ReasoningFile(file)
    case OutCustom(kind, metadata) => left == Custom(kind, metadata)
    case _ => false
  }

  /** The content is what the parts leave, in their order. */
  ghost predicate IsLeftBy(parts: seq<TextPart>, n: nat, content: seq<Part>, places: seq<nat>)
    requires n <= |parts|
  {
    && |places| == |content| && (forall a, b :: 0 <= a < b < |places| ==> places[a] < places[b])
    && (forall k :: 0 <= k < |places| ==> places[k] < n && Leaves(parts[places[k]]) && HasLeft(parts, n, places[k], content[k]))
    && (forall i :: 0 <= i < n && Leaves(parts[i]) ==> i in places)
  }

  // ----- One part

  lemma {:induction false} LeavesOne(b: Builder, parts: seq<TextPart>, n: nat) returns (left: Part)
    requires n < |parts| && Leaves(parts[n])
    ensures Record(b, parts[n]).content == b.content + [left] && HasLeft(parts, n + 1, n, left)
  {
    if parts[n].OutTextStart? { EmptyAtStart(parts, TextKind, n); }
    if parts[n].OutReasoningStart? { EmptyAtStart(parts, ReasoningKind, n); }
    hide BlockText, OpenBlock;
    left := match parts[n]
      case OutTextStart(_, metadata) => Text("", metadata)
      case OutReasoningStart(_, metadata) => Reasoning("", metadata)
      case OutCall(call) => CallContent(call)
      case OutResult(result) => ResultContent(result)
      case OutToolError(failure) => ErrorContent(failure)
      case OutApproval(approval) => ApprovalContent(approval)
      case OutApprovalResponse(response) => ApprovalResponseContent(response)
      case OutSource(source) => Source(source)
      case OutFile(file) => FileContent(file)
      case OutReasoningFile(file) => ReasoningFile(file)
      case OutCustom(kind, metadata) => Custom(kind, metadata)
      case _ => Source("");
  }

  lemma {:induction false} EmptyAtStart(parts: seq<TextPart>, kind: Kind, n: nat)
    requires n < |parts| && Starts(parts[n], kind).Some?
    ensures BlockText(parts, kind, n, n + 1) == ""
  {
    NotYetStarted(parts, kind, n, n);
    BlockNext(parts, kind, n, n + 1);
  }

  /** A part that touches no open block changes none. */
  lemma {:induction false} SameLeft(parts: seq<TextPart>, n: nat, s: nat, left: Part)
    requires s < n < |parts| && HasLeft(parts, n, s, left)
    requires forall kind: Kind :: Touches(parts[n], kind).Some? && Starts(parts[s], kind).Some? ==>
               OpenBlock(parts, kind, Touches(parts[n], kind).value, n) != Some(s)
    ensures HasLeft(parts, n + 1, s, left)
  {
    if parts[s].OutTextStart? {
      assert Starts(parts[s], TextKind).Some?;
      BlockNext(parts, TextKind, s, n + 1);
      hide OpenBlock, BlockText;
      assert BlockText(parts, TextKind, s, n) + "" == BlockText(parts, TextKind, s, n);
    }
    if parts[s].OutReasoningStart? {
      assert Starts(parts[s], ReasoningKind).Some?;
      BlockNext(parts, ReasoningKind, s, n + 1);
      hide OpenBlock, BlockText;
      assert BlockText(parts, ReasoningKind, s, n) + "" == BlockText(parts, ReasoningKind, s, n);
    }
  }

  function BlockPart(kind: Kind, text: string, metadata: Metadata): Part {
    if kind.TextKind? then Text(text, metadata) else Reasoning(text, metadata)
  }

  predicate IsBlockPart(p: Part, kind: Kind) { if kind.TextKind? then p.Text? else p.Reasoning? }

  function Grown(left: Part, kind: Kind, p: TextPart): Part
    requires IsBlockPart(left, kind)
  {
    BlockPart(kind, left.text + Delta(p), if MetadataOf(p).Some? then MetadataOf(p) else left.metadata)
  }

  /** A part that touches the open block. */
  lemma {:induction false} GrownLeft(parts: seq<TextPart>, n: nat, s: nat, kind: Kind, left: Part)
    requires s < n < |parts| && HasLeft(parts, n, s, left) && Starts(parts[s], kind).Some?
    requires Touches(parts[n], kind).Some? && OpenBlock(parts, kind, Touches(parts[n], kind).value, n) == Some(s)
    ensures IsBlockPart(left, kind) && HasLeft(parts, n + 1, s, Grown(left, kind, parts[n]))
  {
    BlockNext(parts, kind, s, n + 1);
    hide OpenBlock, BlockText;
    assert BlockText(parts, kind, s, n) + "" == BlockText(parts, kind, s, n);
  }

  /** How the builder takes a part that leaves nothing of its own. */
  lemma {:induction false} Touched(b: Builder, p: TextPart, kind: Kind)
    requires Indexed(b) && Touches(p, kind).Some?
    ensures var id := Touches(p, kind).value;
            if id in Index(b, kind) then
              var i := Index(b, kind)[id];
              i < |b.content| && IsBlockPart(b.content[i], kind) &&
              Record(b, p).content == b.content[i := Grown(b.content[i], kind, p)]
            else Record(b, p).content == b.content
  {
  }

  lemma {:induction false} Untouched(b: Builder, p: TextPart)
    requires !Leaves(p) && !IsFraming(p) && Touches(p, TextKind).None? && Touches(p, ReasoningKind).None?
    ensures Record(b, p).content == b.content
  {
  }

  // ----- All of the parts

  /** The places are those of the blocks in the content. */
  ghost predicate ArePlaces(parts: seq<TextPart>, places: seq<nat>) {
    forall k :: 0 <= k < |places| ==> places[k] <= |parts| && Place(parts, places[k]) == k
  }

  lemma {:induction false} LeftNext(parts: seq<TextPart>, n: nat, content: seq<Part>, places: seq<nat>, left: Part)
    requires n < |parts| && IsLeftBy(parts, n, content, places) && Leaves(parts[n]) && HasLeft(parts, n + 1, n, left)
    ensures IsLeftBy(parts, n + 1, content + [left], places + [n])
  {
    assert forall kind: Kind :: Touches(parts[n], kind).None?;
    forall k | 0 <= k < |places| ensures HasLeft(parts, n + 1, places[k], content[k]) {
      SameLeft(parts, n, places[k], content[k]);
    }
    hide HasLeft;
    assert (places + [n])[|places|] == n;
    assert forall i :: i in places ==> i in places + [n];
  }

  lemma {:induction false} LeftSame(parts: seq<TextPart>, n: nat, content: seq<Part>, places: seq<nat>)
    requires n < |parts| && IsLeftBy(parts, n, content, places) && !Leaves(parts[n])
    requires forall kind: Kind :: Touches(parts[n], kind).Some? ==>
               OpenBlock(parts, kind, Touches(parts[n], kind).value, n).None?
    ensures IsLeftBy(parts, n + 1, content, places)
  {
    forall k | 0 <= k < |places| ensures HasLeft(parts, n + 1, places[k], content[k]) {
      SameLeft(parts, n, places[k], content[k]);
    }
    hide HasLeft;
  }

  lemma {:induction false} LeftGrows(parts: seq<TextPart>, n: nat, content: seq<Part>, places: seq<nat>, kind: Kind, i: nat)
    requires n < |parts| && IsLeftBy(parts, n, content, places) && !Leaves(parts[n]) && i < |content|
    requires Touches(parts[n], kind).Some? && OpenBlock(parts, kind, Touches(parts[n], kind).value, n) == Some(places[i])
    requires IsBlockPart(content[i], kind)
    ensures IsLeftBy(parts, n + 1, content[i := Grown(content[i], kind, parts[n])], places)
  {
    var content' := content[i := Grown(content[i], kind, parts[n])];
    assert forall other: Kind :: Touches(parts[n], other).Some? ==> other == kind;
    forall k | 0 <= k < |places| ensures HasLeft(parts, n + 1, places[k], content'[k]) {
      if k == i {
        GrownLeft(parts, n, places[k], kind, content[k]);
      } else {
        SameLeft(parts, n, places[k], content[k]);
      }
    }
    hide HasLeft;
  }

  /** Which place an open block has. */
  lemma {:induction false} OpenPlace(parts: seq<TextPart>, n: nat, content: seq<Part>, places: seq<nat>, kind: Kind, id: string)
    requires n < |parts| && Keeps(parts, kind, n, Built(parts, n)) && IsLeftBy(parts, n, content, places) && ArePlaces(parts, places)
    requires id in Index(Built(parts, n), kind)
    ensures var i := Index(Built(parts, n), kind)[id]; i < |places| && OpenBlock(parts, kind, id, n) == Some(places[i])
  {
    hide HasLeft, Built, Place;
    assert OpenAt(parts, kind, id, n, Index(Built(parts, n), kind)[id]);
    var s := OpenBlock(parts, kind, id, n).value;
    assert Leaves(parts[s]) && s in places;
  }

  lemma {:induction false} TouchKeeps(parts: seq<TextPart>, n: nat, places: seq<nat>, kind: Kind)
    requires n < |parts| && NoFraming(parts) && Touches(parts[n], kind).Some?
    requires IsLeftBy(parts, n, Built(parts, n).content, places) && ArePlaces(parts, places)
    ensures IsLeftBy(parts, n + 1, Built(parts, n + 1).content, places)
  {
    BuilderKeeps(parts, kind, n);
    BuiltNext(parts, n + 1);
    var b, id := Built(parts, n), Touches(parts[n], kind).value;
    assert Indexed(b) && IndexKept(parts, kind, n, b);
    Touched(b, parts[n], kind);
    if id in Index(b, kind) {
      OpenPlace(parts, n, b.content, places, kind, id);
      hide IsLeftBy, Built, ArePlaces, Keeps;
      LeftGrows(parts, n, b.content, places, kind, Index(b, kind)[id]);
    } else {
      assert forall other: Kind :: Touches(parts[n], other).Some? ==> other == kind;
      hide IsLeftBy, Built, ArePlaces, Keeps;
      LeftSame(parts, n, b.content, places);
    }
  }

  lemma {:induction false} OneMore(parts: seq<TextPart>, n: nat, before: seq<nat>) returns (places: seq<nat>)
    requires n < |parts| && NoFraming(parts)
    requires IsLeftBy(parts, n, Built(parts, n).content, before) && ArePlaces(parts, before)
    ensures IsLeftBy(parts, n + 1, Built(parts, n + 1).content, places) && ArePlaces(parts, places)
  {
    var b, p := Built(parts, n), parts[n];
    BuiltNext(parts, n + 1);
    assert |before| == |b.content|;
    hide IsLeftBy, Record, Built, ArePlaces, HasLeft, OpenBlock;
    if Leaves(p) {
      var left := LeavesOne(b, parts, n);
      LeftNext(parts, n, b.content, before, left);
      places := before + [n];
      PlaceOfNew(parts, n + 1, b, before);
    } else {
      places := before;
      if Touches(p, TextKind).Some? {
        TouchKeeps(parts, n, before, TextKind);
      } else if Touches(p, ReasoningKind).Some? {
        TouchKeeps(parts, n, before, ReasoningKind);
      } else {
        Untouched(b, p);
        LeftSame(parts, n, b.content, before);
      }
    }
  }

  lemma {:induction false} ContentIsLeft(parts: seq<TextPart>, n: nat) returns (places: seq<nat>)
    requires n <= |parts| && NoFraming(parts)
    ensures IsLeftBy(parts, n, Built(parts, n).content, places) && ArePlaces(parts, places)
  {
    if n == 0 {
      places := [];
    } else {
      var before := ContentIsLeft(parts, n - 1);
      hide IsLeftBy, Record, Built, ArePlaces;
      places := OneMore(parts, n - 1, before);
    }
  }

  lemma {:induction false} PlaceOfNew(parts: seq<TextPart>, n: nat, b: Builder, before: seq<nat>)
    requires 0 < n <= |parts| && b == Built(parts, n - 1) && ArePlaces(parts, before) && |before| == |b.content|
    ensures ArePlaces(parts, before + [n - 1])
  {
    hide Built;
  }

  // ----- The steps of `consume`

  lemma {:induction false} NoFramingSince(events: seq<Event>, n: nat)
    requires n <= |events|
    ensures NoFraming(ConsumeOutcome.PartsSince(events, n))
  {
    if n > 0 { NoFramingSince(events, n - 1); }
  }

  /**
   The content of every step that `consume` records: what the parts streamed
   since the step started leave, in their order, and nothing else.
   */
  lemma {:induction false} RecordHolds(events: seq<Event>, n: nat, step: StepRecord) returns (places: seq<nat>)
    requires n < |events| && ConsumeOutcome.IsRecordOf(events, n, step)
    ensures var parts := ConsumeOutcome.PartsSince(events, n); IsLeftBy(parts, |parts|, step.content, places)
  {
    var parts := ConsumeOutcome.PartsSince(events, n);
    NoFramingSince(events, n);
    hide IsLeftBy, ArePlaces, ConsumeOutcome.PartsSince, Built;
    places := ContentIsLeft(parts, |parts|);
  }
}
