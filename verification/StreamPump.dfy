/**
 The pump of a text stream as atomic steps: the provider's items, two
 deadlines, a bounded channel with an overflow slot for a terminal error, and
 the receiving end, in any interleaving. The caller neither aborts nor drops
 the stream, and instants do not overflow.
 */
module StreamPump {
  import opened Wrappers
  import opened Content

  const CAPACITY: nat := 256

  datatype Deadline = Deadline(at: nat, name: string, durationMs: nat)

  datatype Config = Config(items: seq<Item>, operation: Option<Deadline>, chunkMs: Option<nat>)

  datatype Pump = Polling | Blocked(item: Item, since: nat) | Ended

  /** `taken` items have arrived; `fired` records the deadline that ended the pump. */
  datatype State = State(
    now: nat, taken: nat, pump: Pump, chunk: Option<Deadline>, channel: seq<Item>, overflow: Option<AiError>,
    received: seq<Item>, closed: bool, fired: Option<Deadline>)

  predicate Expired(d: Option<Deadline>, now: nat) { d.Some? && d.value.at <= now }

  function TimeoutOf(d: Deadline): AiError { Timeout(d.name) }

  /** The first-chunk deadline is armed before the provider is called. */
  ghost predicate Init(s: State) {
    && s.taken == 0 && s.pump == Polling && s.channel == [] && s.overflow == None
    && s.received == [] && !s.closed && s.fired == None
  }

  /** `send_terminal_err`: into the channel, or the overflow slot when it is full. */
  function SendTimeout(s: State, d: Deadline): State {
    var e := TimeoutOf(d);
    var s' := s.(pump := Ended, fired := Some(d));
    if |s.channel| < CAPACITY then s'.(channel := s.channel + [Err(e)]) else s'.(overflow := Some(e))
  }

  predicate IsOutputItem(item: Item) { item.Ok? && IsOutput(item.value) }

  /** After an item was sent: end after a terminal one, re-arm after output. */
  function Sent(c: Config, s: State, item: Item, chunk: Option<Deadline>): State {
    var s' := s.(channel := s.channel + [item], pump := Polling, chunk := chunk);
    if IsTerminal(item) then s'.(pump := Ended)
    else if IsOutputItem(item) then
      s'.(chunk := if c.chunkMs.Some? then Some(Deadline(s.now + c.chunkMs.value, "Chunk", c.chunkMs.value)) else None)
    else s'
  }

  /** Time blocked on a full channel is not charged to the chunk deadline. */
  function Shifted(chunk: Option<Deadline>, item: Item, blocked: nat): Option<Deadline> {
    if chunk.None? || IsOutputItem(item) then chunk else Some(chunk.value.(at := chunk.value.at + blocked))
  }

  datatype Step =
    | Tick(ms: nat)
    | OperationTimeout
    | ChunkTimeout
    | Arrive
    | ProviderEnd
    | Unblock
    | BlockedTimeout
    | Receive
    | TakeOverflow
    | Disconnect

  /** When a step may be taken. A deadline that has passed need not have been
      noticed yet when an item or a slot is there. */
  ghost predicate Enabled(c: Config, s: State, e: Step) {
    match e
    case Tick(_) => true
    case OperationTimeout => s.pump.Polling? && Expired(c.operation, s.now)
    case ChunkTimeout => s.pump.Polling? && Expired(s.chunk, s.now)
    case Arrive => s.pump.Polling? && s.taken < |c.items|
    case ProviderEnd => s.pump.Polling? && s.taken == |c.items|
    case Unblock => s.pump.Blocked? && |s.channel| < CAPACITY
    case BlockedTimeout => s.pump.Blocked? && Expired(c.operation, s.now)
    case Receive => !s.closed && s.channel != []
    case TakeOverflow => !s.closed && s.channel == [] && s.pump.Ended? && s.overflow.Some?
    case Disconnect => !s.closed && s.channel == [] && s.pump.Ended? && s.overflow.None?
  }

  ghost function After(c: Config, s: State, e: Step): State
    requires Enabled(c, s, e)
  {
    match e
    case Tick(ms) => s.(now := s.now + ms)
    case OperationTimeout => SendTimeout(s, c.operation.value)
    case ChunkTimeout => SendTimeout(s, s.chunk.value)
    case Arrive =>
      var item, s1 := c.items[s.taken], s.(taken := s.taken + 1);
      if |s.channel| < CAPACITY then Sent(c, s1, item, s.chunk) else s1.(pump := Blocked(item, s.now))
    case ProviderEnd => s.(pump := Ended)
    case Unblock => Sent(c, s, s.pump.item, Shifted(s.chunk, s.pump.item, BlockedFor(s)))
    case BlockedTimeout => SendTimeout(s, c.operation.value)
    case Receive =>
      s.(channel := s.channel[1..], received := s.received + [s.channel[0]],
         closed := s.channel[0].Err? && !IsRecoverable(s.channel[0].error))
    case TakeOverflow =>
      s.(overflow := None, received := s.received + [Err(s.overflow.value)], closed := !IsRecoverable(s.overflow.value))
    case Disconnect => s.(closed := true)
  }

  function BlockedFor(s: State): nat {
    if s.pump.Blocked? && s.pump.since <= s.now then s.now - s.pump.since else 0
  }

  ghost predicate IsRun(c: Config, states: seq<State>, steps: seq<Step>) {
    && |states| == |steps| + 1 && Init(states[0])
    && forall i :: 0 <= i < |steps| ==> Enabled(c, states[i], steps[i]) && states[i + 1] == After(c, states[i], steps[i])
  }

  // ----- What every step keeps

  /** Everything sent so far, in order. */
  function InFlight(s: State): seq<Item> {
    s.received + s.channel + (if s.overflow.Some? then [Err(s.overflow.value)] else [])
  }

  function FiredItem(s: State): seq<Item> { if s.fired.Some? then [Err(TimeoutOf(s.fired.value))] else [] }

  /** The pump sent the first `sent` items, none after a terminal one, and then
      the error of the deadline that fired. One blocked item may be pending, or
      given up when the operation timed out. */
  ghost predicate Sends(c: Config, s: State, sent: nat) {
    && sent <= s.taken <= sent + 1 && s.taken <= |c.items|
    && InFlight(s) == c.items[..sent] + FiredItem(s)
    && (forall i :: 0 <= i < sent && IsTerminal(c.items[i]) ==> i == sent - 1 && s.pump.Ended? && s.fired.None?)
    && match s.pump
       case Polling => sent == s.taken && s.fired.None?
       case Blocked(item, since) => s.taken == sent + 1 && item == c.items[sent] && s.fired.None? && since <= s.now
       case Ended =>
         s.fired.None? ==> sent == s.taken && (sent == |c.items| || (sent > 0 && IsTerminal(c.items[sent - 1])))
  }

  ghost predicate Inv(c: Config, s: State) {
    && (exists sent :: Sends(c, s, sent))
    && |s.channel| <= CAPACITY
    && (s.overflow.Some? ==> s.pump.Ended? && s.fired.Some? && s.overflow.value == TimeoutOf(s.fired.value))
    && (s.closed ==> s.pump.Ended? && s.channel == [] && s.overflow.None?)
  }

  lemma {:induction false} InitInv(c: Config, s: State)
    requires Init(s)
    ensures Inv(c, s)
  {
    assert Sends(c, s, 0);
  }

  /** A non-recoverable error is the last thing sent. */
  lemma {:induction false} FatalIsLast(c: Config, s: State, sent: nat, k: nat)
    requires Sends(c, s, sent) && k < |InFlight(s)|
    requires InFlight(s)[k].Err? && !IsRecoverable(InFlight(s)[k].error)
    ensures k == |InFlight(s)| - 1 && s.pump.Ended?
  {
    if k < sent { assert IsTerminal(c.items[k]); }
  }

  lemma {:induction false} TimeoutInv(c: Config, s: State, d: Deadline)
    requires Inv(c, s) && !s.pump.Ended?
    ensures Inv(c, SendTimeout(s, d))
  {
    var sent :| Sends(c, s, sent);
    var s' := SendTimeout(s, d);
    assert InFlight(s') == InFlight(s) + [Err(TimeoutOf(d))];
    assert Sends(c, s', sent);
  }

  lemma {:induction false} SentInv(c: Config, s: State, item: Item, chunk: Option<Deadline>, sent: nat)
    requires |s.channel| < CAPACITY && s.overflow.None? && !s.closed && s.fired.None?
    requires s.taken == sent + 1 <= |c.items| && c.items[sent] == item
    requires InFlight(s) == c.items[..sent]
    requires forall i :: 0 <= i < sent ==> !IsTerminal(c.items[i])
    ensures Inv(c, Sent(c, s, item, chunk))
  {
    var s' := Sent(c, s, item, chunk);
    assert InFlight(s') == InFlight(s) + [item];
    assert c.items[..sent + 1] == c.items[..sent] + [item];
    assert Sends(c, s', sent + 1);
  }

  lemma {:induction false} PopInv(c: Config, s: State)
    requires Inv(c, s) && Enabled(c, s, Receive)
    ensures Inv(c, After(c, s, Receive))
  {
    var sent :| Sends(c, s, sent);
    var s' := After(c, s, Receive);
    assert s.channel == [s.channel[0]] + s.channel[1..];
    assert InFlight(s') == InFlight(s);
    assert InFlight(s)[|s.received|] == s.channel[0];
    if s'.closed { FatalIsLast(c, s, sent, |s.received|); }
    assert Sends(c, s', sent);
  }

  lemma {:induction false} StepInv(c: Config, s: State, e: Step)
    requires Inv(c, s) && Enabled(c, s, e)
    ensures Inv(c, After(c, s, e))
  {
    var sent :| Sends(c, s, sent);
    var s' := After(c, s, e);
    match e
    case Tick(_) => assert Sends(c, s', sent);
    case OperationTimeout => TimeoutInv(c, s, c.operation.value);
    case ChunkTimeout => TimeoutInv(c, s, s.chunk.value);
    case BlockedTimeout => TimeoutInv(c, s, c.operation.value);
    case Arrive =>
      if |s.channel| < CAPACITY { SentInv(c, s.(taken := s.taken + 1), c.items[s.taken], s.chunk, sent); }
      else { assert Sends(c, s', sent); }
    case Unblock => SentInv(c, s, s.pump.item, Shifted(s.chunk, s.pump.item, BlockedFor(s)), sent);
    case ProviderEnd => assert Sends(c, s', sent);
    case Receive => PopInv(c, s);
    case TakeOverflow =>
      assert InFlight(s') == InFlight(s);
      assert Sends(c, s', sent);
    case Disconnect => assert Sends(c, s', sent);
  }

  lemma {:induction false} RunInv(c: Config, states: seq<State>, steps: seq<Step>, i: nat)
    requires IsRun(c, states, steps) && i < |states|
    ensures Inv(c, states[i])
  {
    if i == 0 { InitInv(c, states[0]); }
    else {
      RunInv(c, states, steps, i - 1);
      StepInv(c, states[i - 1], steps[i - 1]);
    }
  }

  // ----- What the consumer receives

  /** A finish, or an error other than that of a malformed frame. */
  predicate EndsStream(item: Item) {
    match item
    case Ok(part) => part.FinishPart?
    case Err(e) => !e.JsonParse? && !e.InvalidResponseData?
  }

  /** What a run delivers: the provider's items in order, up to the first
      terminal one, and then the error of the deadline that fired, if one did. */
  ghost predicate Delivers(c: Config, received: seq<Item>, fired: Option<Deadline>, sent: nat) {
    && sent <= |c.items|
    && received == c.items[..sent] + (if fired.Some? then [Err(TimeoutOf(fired.value))] else [])
    && (forall i :: 0 <= i < sent && EndsStream(c.items[i]) ==> i == sent - 1 && fired.None?)
    && (fired.None? ==> sent == |c.items| || (sent > 0 && EndsStream(c.items[sent - 1])))
  }

  /** In every interleaving, when the consumer is done it has received what the
      run delivers, a deadline error exactly once and last even if the channel
      was full. A deadline costs at most the one item that was blocked. */
  lemma {:induction false} ReceivedInOrder(c: Config, states: seq<State>, steps: seq<Step>, i: nat)
    requires IsRun(c, states, steps) && i < |states| && states[i].closed
    ensures exists sent: nat :: Delivers(c, states[i].received, states[i].fired, sent) && states[i].taken <= sent + 1
  {
    RunInv(c, states, steps, i);
    var s := states[i];
    var sent :| Sends(c, s, sent);
    assert InFlight(s) == s.received;
    assert Delivers(c, s.received, s.fired, sent);
  }

  /** At every point of a run, what was received so far is a prefix of the first
      items and the error of the deadline that fired, if one did. */
  lemma {:induction false} ReceivedIsPrefix(c: Config, states: seq<State>, steps: seq<Step>, i: nat)
    requires IsRun(c, states, steps) && i < |states|
    ensures exists sent: nat ::
              && sent <= states[i].taken <= |c.items|
              && states[i].received <= c.items[..sent] + FiredItem(states[i])
              && forall k :: 0 <= k < sent && EndsStream(c.items[k]) ==> k == sent - 1 && states[i].fired.None?
  {
    RunInv(c, states, steps, i);
    var s := states[i];
    var sent: nat :| Sends(c, s, sent);
    assert s.received <= InFlight(s) == c.items[..sent] + FiredItem(s);
    assert sent <= s.taken;
  }

  /** And it only grows. */
  lemma {:induction false} ReceivedOnlyGrows(c: Config, states: seq<State>, steps: seq<Step>, i: nat, j: nat)
    requires IsRun(c, states, steps) && i <= j < |states|
    ensures states[i].received <= states[j].received
    decreases j
  {
    hide After, Enabled, Init;
    if i < j {
      ReceivedOnlyGrows(c, states, steps, i, j - 1);
      ReceivedGrows(c, states[j - 1], steps[j - 1]);
    }
  }

  lemma {:induction false} ReceivedGrows(c: Config, s: State, e: Step)
    requires Enabled(c, s, e)
    ensures s.received <= After(c, s, e).received
  {
  }

  /** The step at `k` gives up on `d`, which has passed. */
  ghost predicate TimesOut(c: Config, states: seq<State>, steps: seq<Step>, k: nat, d: Deadline)
    requires |states| == |steps| + 1 && k < |steps|
  {
    && d.at <= states[k].now
    && match steps[k]
       case OperationTimeout => c.operation == Some(d)
       case BlockedTimeout => c.operation == Some(d)
       case ChunkTimeout => states[k].chunk == Some(d)
       case _ => false
  }

  /** A deadline is recorded exactly when a timeout step has been taken for it,
      and not before it had passed. */
  lemma {:induction false} FiredByTimeout(c: Config, states: seq<State>, steps: seq<Step>, i: nat, d: Deadline)
    requires IsRun(c, states, steps) && i < |states|
    ensures states[i].fired == Some(d) <==> exists k :: 0 <= k < i && TimesOut(c, states, steps, k, d)
  {
    if i > 0 {
      FiredByTimeout(c, states, steps, i - 1, d);
      RunInv(c, states, steps, i - 1);
      FiredStep(c, states, steps, i - 1, d);
      hide After, Enabled, TimesOut;
    }
  }

  lemma {:induction false} FiredStep(c: Config, states: seq<State>, steps: seq<Step>, k: nat, d: Deadline)
    requires IsRun(c, states, steps) && k < |steps| && Inv(c, states[k])
    ensures states[k + 1].fired == Some(d) <==> states[k].fired == Some(d) || TimesOut(c, states, steps, k, d)
  {
    assert states[k + 1] == After(c, states[k], steps[k]);
  }

  /** No run is stuck: until the consumer is done some step but time is enabled. */
  lemma {:induction false} NeverStuck(c: Config, states: seq<State>, steps: seq<Step>, i: nat)
    requires IsRun(c, states, steps) && i < |states| && !states[i].closed
    ensures exists e: Step :: !e.Tick? && Enabled(c, states[i], e)
  {
    RunInv(c, states, steps, i);
    var s := states[i];
    if s.channel != [] {
      assert Enabled(c, s, Receive);
    } else {
      match s.pump
      case Polling => if s.taken < |c.items| { assert Enabled(c, s, Arrive); } else { assert Enabled(c, s, ProviderEnd); }
      case Blocked(_, _) => assert Enabled(c, s, Unblock);
      case Ended => if s.overflow.Some? { assert Enabled(c, s, TakeOverflow); } else { assert Enabled(c, s, Disconnect); }
    }
  }

  // ----- The chunk budget

  /** The time that passes in the steps from `i` up to `j` while the pump is blocked. */
  ghost function TimeBlocked(states: seq<State>, steps: seq<Step>, i: nat, j: nat): nat
    requires |states| == |steps| + 1 && i <= j < |states|
    decreases j
  {
    if i == j then 0
    else
      var e := steps[j - 1];
      TimeBlocked(states, steps, i, j - 1) + if e.Tick? && states[j - 1].pump.Blocked? then e.ms else 0
  }

  /** The time charged for items sent after being blocked. */
  ghost function BlockedBetween(states: seq<State>, steps: seq<Step>, i: nat, j: nat): nat
    requires |states| == |steps| + 1 && i <= j < |states|
    decreases j
  {
    if i == j then 0
    else BlockedBetween(states, steps, i, j - 1) + if steps[j - 1].Unblock? then BlockedFor(states[j - 1]) else 0
  }

  /** Text, reasoning or tool input that is not empty, a call, or a file. */
  predicate GivesOutput(item: Item) {
    match item
    case Ok(TextDelta(_, delta, _)) => |delta| > 0
    case Ok(ReasoningDelta(_, delta, _)) => |delta| > 0
    case Ok(ToolInputDelta(_, delta)) => |delta| > 0
    case Ok(part) => part.Call? || part.FilePart? || part.ReasoningFilePart?
    case Err(_) => false
  }

  /** The step at `k` puts output into the channel: an item that arrives while
      there is room, or the blocked one. */
  ghost predicate SendsOutput(c: Config, states: seq<State>, steps: seq<Step>, k: nat)
    requires |states| == |steps| + 1 && k < |steps|
  {
    match steps[k]
    case Arrive => |states[k].channel| < CAPACITY && states[k].taken < |c.items| && GivesOutput(c.items[states[k].taken])
    case Unblock => states[k].pump.Blocked? && GivesOutput(states[k].pump.item)
    case _ => false
  }

  /** The chunk deadline is armed at the start, for the first chunk, and directly
      after every step that sends output. */
  ghost predicate ArmsAt(c: Config, states: seq<State>, steps: seq<Step>, a: nat)
    requires |states| == |steps| + 1 && a < |states|
  {
    a == 0 || SendsOutput(c, states, steps, a - 1)
  }

  /** The last arming at or before `i`. */
  ghost predicate LastArmed(c: Config, states: seq<State>, steps: seq<Step>, a: nat, i: nat)
    requires |states| == |steps| + 1 && a <= i < |states|
  {
    ArmsAt(c, states, steps, a) && forall k :: a <= k < i ==> !SendsOutput(c, states, steps, k)
  }

  /** What is armed: at the start the first-chunk deadline, after output the
      chunk timeout from now, when there is one. */
  ghost function Armed(c: Config, states: seq<State>, a: nat): Option<Deadline>
    requires a < |states|
  {
    if a == 0 then states[0].chunk
    else if c.chunkMs.Some? then Some(Deadline(states[a].now + c.chunkMs.value, "Chunk", c.chunkMs.value))
    else None
  }

  function Moved(d: Option<Deadline>, ms: nat): Option<Deadline> {
    if d.Some? then Some(d.value.(at := d.value.at + ms)) else None
  }

  /** At every point of every run the chunk deadline is the one armed last, at
      the start or directly after output was sent, moved by the time blocked
      since, and by nothing else. */
  lemma {:induction false} ChunkDeadlineIs(c: Config, states: seq<State>, steps: seq<Step>, i: nat) returns (a: nat)
    requires IsRun(c, states, steps) && i < |states|
    ensures a <= i && LastArmed(c, states, steps, a, i)
    ensures states[i].chunk == Moved(Armed(c, states, a), BlockedBetween(states, steps, a, i))
  {
    if i == 0 { return 0; }
    ChunkStep(c, states, steps, i - 1);
    if SendsOutput(c, states, steps, i - 1) {
      a := i;
    } else {
      a := ChunkDeadlineIs(c, states, steps, i - 1);
      hide SendsOutput;
    }
  }

  lemma {:induction false} ChunkStep(c: Config, states: seq<State>, steps: seq<Step>, k: nat)
    requires IsRun(c, states, steps) && k < |steps|
    ensures states[k + 1].chunk ==
            if SendsOutput(c, states, steps, k) then Armed(c, states, k + 1)
            else Moved(states[k].chunk, if steps[k].Unblock? then BlockedFor(states[k]) else 0)
  {
    assert states[k + 1] == After(c, states[k], steps[k]);
  }

  /** A blocked item is charged for the time since it found the channel full. */
  lemma {:induction false} ChargedIsBlocked(c: Config, states: seq<State>, steps: seq<Step>, a: nat, i: nat)
    requires IsRun(c, states, steps) && a <= i < |states| && !states[a].pump.Blocked?
    ensures states[i].pump.Ended?
         || TimeBlocked(states, steps, a, i)
            == BlockedBetween(states, steps, a, i) + (if states[i].pump.Blocked? then BlockedFor(states[i]) else 0)
    ensures states[i].pump.Blocked? ==> states[i].pump.since <= states[i].now
    decreases i
  {
    if a < i {
      ChargedIsBlocked(c, states, steps, a, i - 1);
      assert states[i] == After(c, states[i - 1], steps[i - 1]) && Enabled(c, states[i - 1], steps[i - 1]);
      ChargeStep(c, states[i - 1], steps[i - 1]);
      hide After;
    }
  }

  lemma {:induction false} ChargeStep(c: Config, s: State, e: Step)
    requires Enabled(c, s, e) && (s.pump.Blocked? ==> s.pump.since <= s.now)
    ensures var s' := After(c, s, e);
            && (s'.pump.Blocked? ==> s'.pump.since <= s'.now)
            && (s.pump.Ended? || e.BlockedTimeout? ==> s'.pump.Ended?)
            && (e.Unblock? || e.BlockedTimeout? || e.Arrive? || e.OperationTimeout? || e.ChunkTimeout? || e.ProviderEnd? ==>
                  !s'.pump.Blocked? || (e.Arrive? && BlockedFor(s') == 0))
            && (e.Tick? ==> s'.pump == s.pump && (s.pump.Blocked? ==> BlockedFor(s') == BlockedFor(s) + e.ms))
            && (e.Receive? || e.TakeOverflow? || e.Disconnect? ==> s'.pump == s.pump && s'.now == s.now)
  {
  }

  lemma {:induction false} ArmedIsFree(c: Config, states: seq<State>, steps: seq<Step>, a: nat)
    requires IsRun(c, states, steps) && a < |states| && ArmsAt(c, states, steps, a)
    ensures !states[a].pump.Blocked?
  {
    if a > 0 { assert states[a] == After(c, states[a - 1], steps[a - 1]); }
  }

  /** The chunk or first-chunk timeout can fire exactly when the pump waits for
      the provider and the time since the deadline was last armed, less all time
      blocked on a full channel since, has reached its duration: whenever it
      fires the budget is used up, and once it is used up it may fire. */
  lemma {:induction false} BudgetIsRespected(c: Config, states: seq<State>, steps: seq<Step>, i: nat) returns (a: nat)
    requires IsRun(c, states, steps) && i < |states|
    ensures a <= i && LastArmed(c, states, steps, a, i)
    ensures Enabled(c, states[i], ChunkTimeout) <==>
              && states[i].pump.Polling? && Armed(c, states, a).Some?
              && var d := Armed(c, states, a).value;
                 var armed := d.at - d.durationMs;
                 states[i].now - armed - TimeBlocked(states, steps, a, i) >= d.durationMs
    ensures a > 0 && Armed(c, states, a).Some? ==>
              Armed(c, states, a).value.at - Armed(c, states, a).value.durationMs == states[a].now
    ensures i < |steps| && steps[i].ChunkTimeout? ==>
              Armed(c, states, a).Some? && states[i + 1].fired.Some?
              && states[i + 1].fired.value.durationMs == Armed(c, states, a).value.durationMs
  {
    a := ChunkDeadlineIs(c, states, steps, i);
    ArmedIsFree(c, states, steps, a);
    ChargedIsBlocked(c, states, steps, a, i);
    if i < |steps| { assert Enabled(c, states[i], steps[i]); }
  }
}
