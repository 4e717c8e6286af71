/** What `consume` returns, by the places of events in the stream. */
module ConsumeOutcome {
  import opened Wrappers
  import opened Content
  import opened ResponseMessages
  import opened TextStream
  import opened StreamBlocks

  // ----- Events

  /** Reading stops at the finish, an abort, and any error but a malformed frame's. */
  predicate StopsReading(e: Event) {
    match e
    case Ok(part) => part.Finish? || part.Abort?
    case Err(error) => !error.JsonParse? && !error.InvalidResponseData?
  }

  ghost predicate IsFirstStop(events: seq<Event>, m: nat) {
    && m <= |events| && (forall i :: 0 <= i < m ==> !StopsReading(events[i]))
    && (m < |events| ==> StopsReading(events[m]))
  }

  /** A malformed frame or an error part. */
  predicate IsProblem(e: Event) {
    match e
    case Ok(part) => part.OutError?
    case Err(error) => error.JsonParse? || error.InvalidResponseData?
  }

  function ProblemOf(e: Event): AiError
    requires IsProblem(e)
  {
    if e.Ok? then e.value.error else e.error
  }

  ghost predicate IsFirstProblem(events: seq<Event>, m: nat, i: nat)
    requires m <= |events|
  {
    i < m && IsProblem(events[i]) && forall k :: 0 <= k < i ==> !IsProblem(events[k])
  }

  ghost predicate NoProblem(events: seq<Event>, m: nat)
    requires m <= |events|
  {
    forall k :: 0 <= k < m ==> !IsProblem(events[k])
  }

  predicate FinishesStep(e: Event) { e.Ok? && e.value.FinishStep? }

  // ----- The step that an event belongs to

  /** The parts since the last start or finish of a step before `n`. */
  function PartsSince(events: seq<Event>, n: nat): seq<TextPart>
    requires n <= |events|
  {
    if n == 0 then []
    else
      match events[n - 1]
      case Ok(StartStep(_)) => []
      case Ok(FinishStep(_, _)) => []
      case Ok(part) => if part.OutError? then PartsSince(events, n - 1) else PartsSince(events, n - 1) + [part]
      case Err(_) => PartsSince(events, n - 1)
  }

  /** The warnings of the last start of a step before `n`, if it has not finished. */
  function WarningsSince(events: seq<Event>, n: nat): seq<string>
    requires n <= |events|
  {
    if n == 0 then []
    else
      match events[n - 1]
      case Ok(StartStep(warnings)) => warnings
      case Ok(FinishStep(_, _)) => []
      case _ => WarningsSince(events, n - 1)
  }

  /** The record of a step that finishes at `n`: what was streamed since it started. */
  ghost predicate IsRecordOf(events: seq<Event>, n: nat, step: StepRecord)
    requires n < |events|
  {
    && FinishesStep(events[n])
    && step.content == BuiltAll(PartsSince(events, n)).content && step.messages == Messages(step.content)
    && step.reason == events[n].value.reason && step.warnings == WarningsSince(events, n)
  }

  /** One record for each step that finishes before `m`, in order. */
  ghost predicate AreRecords(events: seq<Event>, m: nat, steps: seq<StepRecord>, places: seq<nat>)
    requires m <= |events|
  {
    && |places| == |steps|
    && (forall a, b :: 0 <= a < b < |places| ==> places[a] < places[b])
    && (forall k :: 0 <= k < |steps| ==> places[k] < m && IsRecordOf(events, places[k], steps[k]))
    && (forall i :: 0 <= i < m && FinishesStep(events[i]) ==> i in places)
  }

  // ----- What is gathered

  ghost predicate GatheredAs(events: seq<Event>, n: nat, g: Gathered, places: seq<nat>)
    requires n <= |events|
  {
    && g.failed.None? && g.aborted.None? && g.totalUsage.None? && !g.stopped
    && (if g.firstError.None? then NoProblem(events, n)
        else exists i: nat :: IsFirstProblem(events, n, i) && g.firstError == Some(ProblemOf(events[i])))
    && AreRecords(events, n, g.steps, places)
    && g.warnings == WarningsSince(events, n) && g.builder == BuiltAll(PartsSince(events, n))
  }

  lemma {:induction false} RecordsStay(events: seq<Event>, n: nat, steps: seq<StepRecord>, places: seq<nat>)
    requires n < |events| && AreRecords(events, n, steps, places) && !FinishesStep(events[n])
    ensures AreRecords(events, n + 1, steps, places)
  {
  }

  lemma {:induction false} RecordsGrow(events: seq<Event>, n: nat, steps: seq<StepRecord>, places: seq<nat>, step: StepRecord)
    requires n < |events| && AreRecords(events, n, steps, places) && IsRecordOf(events, n, step)
    ensures AreRecords(events, n + 1, steps + [step], places + [n])
  {
    hide IsRecordOf;
    var more := places + [n];
    assert more[|places|] == n;
    assert forall i :: i in places ==> i in more;
  }

  lemma {:induction false} BuiltNothing()
    ensures BuiltAll([]) == EMPTY_BUILDER
  {
  }

  /** One event that does not stop reading. */
  lemma {:induction false} GatherOne(events: seq<Event>, n: nat, g: Gathered, places: seq<nat>) returns (places': seq<nat>)
    requires n < |events| && GatheredAs(events, n, g, places) && !StopsReading(events[n])
    ensures GatheredAs(events, n + 1, Gather(g, events[n]), places')
  {
    var e := events[n];
    places' := places;
    BuiltNothing();
    if IsProblem(e) {
      RecordsStay(events, n, g.steps, places);
      ProblemNoted(events, n, g.firstError);
      hide AreRecords, NoProblem, IsFirstProblem, BuiltAll;
    } else if FinishesStep(e) {
      var step := StepRecord(g.builder.content, Messages(g.builder.content), e.value.reason, g.warnings);
      RecordsGrow(events, n, g.steps, places, step);
      places' := places + [n];
      NoNewProblem(events, n, g.firstError);
      hide AreRecords, NoProblem, IsFirstProblem, BuiltAll, Messages;
    } else {
      RecordsStay(events, n, g.steps, places);
      NoNewProblem(events, n, g.firstError);
      PartGathered(events, n, g);
      hide AreRecords, NoProblem, IsFirstProblem, BuiltAll, Messages;
    }
  }

  lemma {:induction false} PartGathered(events: seq<Event>, n: nat, g: Gathered)
    requires n < |events| && !StopsReading(events[n]) && !IsProblem(events[n]) && !FinishesStep(events[n]) && !g.stopped
    requires g.warnings == WarningsSince(events, n) && g.builder == BuiltAll(PartsSince(events, n))
    ensures var g' := Gather(g, events[n]);
            && g' == g.(builder := g'.builder, warnings := g'.warnings)
            && g'.warnings == WarningsSince(events, n + 1) && g'.builder == BuiltAll(PartsSince(events, n + 1))
  {
    var part := events[n].value;
    BuiltNothing();
    if !part.StartStep? { BuiltAllNext(PartsSince(events, n), part); }
    hide BuiltAll, Record, Messages;
  }

  ghost predicate ErrorIs(events: seq<Event>, n: nat, firstError: Option<AiError>)
    requires n <= |events|
  {
    if firstError.None? then NoProblem(events, n)
    else exists i: nat :: IsFirstProblem(events, n, i) && firstError == Some(ProblemOf(events[i]))
  }

  lemma {:induction false} ProblemNoted(events: seq<Event>, n: nat, firstError: Option<AiError>)
    requires n < |events| && IsProblem(events[n]) && ErrorIs(events, n, firstError)
    ensures ErrorIs(events, n + 1, if firstError.Some? then firstError else Some(ProblemOf(events[n])))
  {
    if firstError.Some? {
      var i: nat :| IsFirstProblem(events, n, i) && firstError == Some(ProblemOf(events[i]));
      assert IsFirstProblem(events, n + 1, i);
    } else {
      assert IsFirstProblem(events, n + 1, n);
    }
  }

  lemma {:induction false} NoNewProblem(events: seq<Event>, n: nat, firstError: Option<AiError>)
    requires n < |events| && !IsProblem(events[n]) && ErrorIs(events, n, firstError)
    ensures ErrorIs(events, n + 1, firstError)
  {
    if firstError.Some? {
      var i: nat :| IsFirstProblem(events, n, i) && firstError == Some(ProblemOf(events[i]));
      assert IsFirstProblem(events, n + 1, i);
    }
  }

  lemma {:induction false} GatheredBefore(events: seq<Event>, m: nat, n: nat) returns (places: seq<nat>)
    requires IsFirstStop(events, m) && n <= m
    ensures GatheredAs(events, n, GatherAll(events, n), places)
  {
    if n == 0 {
      places := [];
      BuiltNothing();
    } else {
      var before := GatheredBefore(events, m, n - 1);
      hide GatheredAs, Gather;
      places := GatherOne(events, n - 1, GatherAll(events, n - 1), before);
    }
  }

  // ----- The outcome

  lemma {:induction false} FirstStop(events: seq<Event>) returns (m: nat)
    ensures IsFirstStop(events, m)
  {
    m := 0;
    while m < |events| && !StopsReading(events[m])
      invariant m <= |events| && forall i :: 0 <= i < m ==> !StopsReading(events[i])
    {
      m := m + 1;
    }
  }

  /** What `consume` returns of a stream that it reads up to `m`: the error that
      stopped it; else the first problem, if there was one; else, when no step
      finished, the abort or that there was no output; else the record of every
      step that finished, with the usage of the finish. */
  ghost predicate IsOutcome(events: seq<Event>, m: nat, result: Result<Consumed, AiError>, places: seq<nat>)
    requires m <= |events|
  {
    if m < |events| && events[m].Err? then result == Err(events[m].error)
    else if !NoProblem(events, m) then
      exists i: nat :: IsFirstProblem(events, m, i) && result == Err(ProblemOf(events[i]))
    else if forall i :: 0 <= i < m ==> !FinishesStep(events[i]) then
      result.Err? &&
      if m < |events| && events[m].value.Abort? then result.error == Aborted(events[m].value.message)
      else result.error == NoOutputGenerated("No output generated. Check the stream for errors.")
    else
      && result.Ok? && AreRecords(events, m, result.value.steps, places)
      && result.value.totalUsage == if m < |events| && events[m].value.Finish? then events[m].value.totalUsage else 0
  }

  /** The outcome of `consume`, for every stream of events. */
  lemma {:induction false} ConsumeReturns(events: seq<Event>) returns (m: nat, places: seq<nat>)
    ensures IsFirstStop(events, m) && IsOutcome(events, m, ConsumeSpec(events), places)
  {
    m := FirstStop(events);
    places := GatheredBefore(events, m, m);
    if m < |events| { StoppedAt(events, m); }
    hide GatherAll, Gather, Conclude, IsOutcome;
    Concluded(events, m, GatherAll(events, m), places);
  }

  lemma {:induction false} Concluded(events: seq<Event>, m: nat, g: Gathered, places: seq<nat>)
    requires IsFirstStop(events, m) && GatheredAs(events, m, g, places)
    ensures IsOutcome(events, m, Conclude(if m < |events| then Gather(g, events[m]) else g), places)
  {
    StepsAreThere(events, m, g.steps, places);
    assert g.firstError.None? <==> NoProblem(events, m) by { ProblemThere(events, m, g.firstError); }
    hide AreRecords, NoProblem, IsFirstProblem, IsFirstStop, BuiltAll, PartsSince, WarningsSince, Messages, Record;
    if m < |events| {
      match events[m]
      case Err(_) =>
      case Ok(part) => Stopped(g, part);
    }
  }

  lemma {:induction false} Stopped(g: Gathered, part: TextPart)
    requires !g.stopped && (part.Finish? || part.Abort?)
    ensures var g' := Gather(g, Ok(part));
            if part.Finish? then g' == g.(totalUsage := Some(part.totalUsage), stopped := true)
            else g' == g.(aborted := Some(Aborted(part.message)), stopped := true)
  {
    hide Record, Messages;
  }

  lemma {:induction false} ProblemThere(events: seq<Event>, n: nat, firstError: Option<AiError>)
    requires n <= |events| && ErrorIs(events, n, firstError)
    ensures firstError.None? <==> NoProblem(events, n)
  {
  }

  lemma {:induction false} StepsAreThere(events: seq<Event>, m: nat, steps: seq<StepRecord>, places: seq<nat>)
    requires m <= |events| && AreRecords(events, m, steps, places)
    ensures steps == [] <==> forall i :: 0 <= i < m ==> !FinishesStep(events[i])
  {
    if steps != [] { assert FinishesStep(events[places[0]]); }
  }

  lemma {:induction false} StoppedAt(events: seq<Event>, m: nat)
    requires m < |events| && StopsReading(events[m]) && !GatherAll(events, m).stopped
    ensures GatherAll(events, |events|) == Gather(GatherAll(events, m), events[m])
  {
    assert GatherAll(events, m + 1) == Gather(GatherAll(events, m), events[m]);
    StoppedStays(events, m + 1);
  }
}
