/** What every text stream looks like. */
module TextStreamProofs {
  import opened Wrappers
  import opened Content
  import opened ResponseMessages
  import opened TextStream

  // ----- The frame of the stream

  predicate IsFatal(e: Event) { e.Err? && !IsRecoverable(e.error) }

  /** The events that only the end of a stream has. */
  predicate IsEnding(e: Event) {
    IsFatal(e) || (e.Ok? && (e.value.FinishStep? || e.value.Finish? || e.value.Abort?))
  }

  predicate IsStartStep(e: Event) { e.Ok? && e.value.StartStep? }

  /** The events of the step itself. */
  predicate IsOfStep(e: Event) { e.Ok? && !e.value.Start? && !e.value.StartStep? && !e.value.Abort? }

  ghost predicate StepOpenBefore(out: seq<Event>, i: nat)
    requires i <= |out|
  {
    exists j :: 0 <= j < i && IsStartStep(out[j])
  }

  ghost predicate WellFramed(out: seq<Event>) {
    && out != [] && out[0] == Ok(Start)
    && (forall i :: 0 < i < |out| ==> out[i] != Ok(Start))
    && (forall i, j :: 0 <= i < j < |out| ==> !(IsStartStep(out[i]) && IsStartStep(out[j])))
    && (forall i :: 0 <= i < |out| && IsOfStep(out[i]) ==> StepOpenBefore(out, i))
  }

  ghost predicate NoEnding(out: seq<Event>, n: nat)
    requires n <= |out|
  {
    forall i :: 0 <= i < n ==> !IsEnding(out[i])
  }

  ghost predicate Framed(r: Run) {
    && WellFramed(r.out)
    && (r.con.started <==> StepOpenBefore(r.out, |r.out|))
    && (r.con.terminal || r.con.sawOutput ==> r.con.started)
    && NoEnding(r.out, |r.out| - (if r.done then 1 else 0))
    && (r.done ==> IsFatal(r.out[|r.out| - 1]) || (r.out[|r.out| - 1].Ok? && r.out[|r.out| - 1].value.Abort?))
  }

  lemma {:induction false} HandleYields(choice: ToolChoice, a: Answers, con: Consumer, part: StreamPart)
    ensures var (con', events) := Handle(choice, a, con, part);
            && (forall i :: 0 <= i < |events| ==> IsOfStep(events[i]) && !IsEnding(events[i]))
            && con'.started == con.started
            && (part.StreamStart? ==> events == [])
            && (con'.terminal || con'.sawOutput ==> con.terminal || con.sawOutput || !part.StreamStart?)
  {
  }

  /** Events that neither frame nor end the stream, once the step is open. */
  lemma {:induction false} MoreOfStep(out: seq<Event>, more: seq<Event>)
    requires WellFramed(out) && NoEnding(out, |out|)
    requires forall i :: 0 <= i < |more| ==> !IsEnding(more[i]) && (more[i].Err? || IsOfStep(more[i]))
    requires (forall i :: 0 <= i < |more| ==> more[i].Err?) || StepOpenBefore(out, |out|)
    ensures WellFramed(out + more) && NoEnding(out + more, |out + more|)
    ensures StepOpenBefore(out + more, |out + more|) <==> StepOpenBefore(out, |out|)
  {
    var all := out + more;
    assert forall i :: 0 <= i < |out| ==> all[i] == out[i];
    assert forall i :: |out| <= i < |all| ==> all[i] == more[i - |out|];
    forall i | 0 <= i < |all| && IsOfStep(all[i]) ensures StepOpenBefore(all, i) {
      if i < |out| {
        var j :| 0 <= j < i && IsStartStep(out[j]);
        assert IsStartStep(all[j]);
      } else {
        var j :| 0 <= j < |out| && IsStartStep(out[j]);
        assert IsStartStep(all[j]);
      }
    }
    if StepOpenBefore(out, |out|) {
      var j :| 0 <= j < |out| && IsStartStep(out[j]);
      assert IsStartStep(all[j]);
    }
  }

  lemma {:induction false} OpenStep(out: seq<Event>, warnings: seq<string>)
    requires WellFramed(out) && NoEnding(out, |out|) && !StepOpenBefore(out, |out|)
    ensures var all := out + [Ok(StartStep(warnings))];
            WellFramed(all) && NoEnding(all, |all|) && StepOpenBefore(all, |all|)
  {
    var all := out + [Ok(StartStep(warnings))];
    assert forall i :: 0 <= i < |out| ==> all[i] == out[i];
    assert IsStartStep(all[|out|]);
    assert forall j :: 0 <= j < |out| ==> !IsStartStep(out[j]);
    assert forall i :: 0 <= i < |out| ==> !StepOpenBefore(out, i);
  }

  lemma {:induction false} LastEvent(out: seq<Event>, last: Event)
    requires WellFramed(out) && NoEnding(out, |out|) && !IsOfStep(last) && last != Ok(Start) && !IsStartStep(last)
    ensures WellFramed(out + [last]) && NoEnding(out + [last], |out|)
    ensures StepOpenBefore(out + [last], |out| + 1) <==> StepOpenBefore(out, |out|)
  {
    var all := out + [last];
    assert forall i :: 0 <= i < |out| ==> all[i] == out[i];
    forall i | 0 <= i < |all| && IsOfStep(all[i]) ensures StepOpenBefore(all, i) {
      var j :| 0 <= j < i && IsStartStep(out[j]);
      assert IsStartStep(all[j]);
    }
    if StepOpenBefore(out, |out|) {
      var j :| 0 <= j < |out| && IsStartStep(out[j]);
      assert IsStartStep(all[j]);
    }
  }

  lemma {:induction false} DeliverFramed(choice: ToolChoice, r: Run, d: Delivery)
    requires Framed(r)
    ensures Framed(Deliver(choice, r, d))
  {
    hide WellFramed, NoEnding, StepOpenBefore, Handle;
    if !r.done {
      match d
      case AbortSeen(message) => LastEvent(r.out, Ok(Abort(message)));
      case Got(Err(error), _) =>
        if IsRecoverable(error) { MoreOfStep(r.out, [Err(error)]); } else { LastEvent(r.out, Err(error)); }
      case Got(Ok(part), a) =>
        var (con, start) := Opened(r.con, part);
        HandleYields(choice, a, con, part);
        var events := Handle(choice, a, con, part).1;
        if start != [] { OpenStep(r.out, r.con.warnings); }
        assert r.out + [] == r.out;
        MoreOfStep(r.out + start, events);
    }
  }

  lemma {:induction false} AfterFramed(choice: ToolChoice, ds: seq<Delivery>, n: nat)
    requires n <= |ds|
    ensures Framed(AfterDeliveries(choice, ds, n))
  {
    hide Deliver;
    if n > 0 {
      AfterFramed(choice, ds, n - 1);
      DeliverFramed(choice, AfterDeliveries(choice, ds, n - 1), ds[n - 1]);
    }
  }

  datatype Ending = Finished | WithoutOutput | WasAborted | Broken

  /** How a stream ended, by its last event; nothing before is an ending. */
  ghost predicate EndsAs(out: seq<Event>, ending: Ending) {
    var n := |out|;
    match ending
    case Finished =>
      && n >= 3 && out[n - 1].Ok? && out[n - 1].value.Finish? && out[n - 2].Ok? && out[n - 2].value.FinishStep?
      && NoEnding(out, n - 2) && WellFramed(out)
    case WithoutOutput =>
      n >= 2 && out[n - 1] == Ok(OutError(NO_OUTPUT)) && NoEnding(out, n) && WellFramed(out[..n - 1])
    case WasAborted => n >= 2 && out[n - 1].Ok? && out[n - 1].value.Abort? && NoEnding(out, n - 1) && WellFramed(out)
    case Broken => n >= 2 && IsFatal(out[n - 1]) && NoEnding(out, n - 1) && WellFramed(out)
  }

  /** Every stream begins with `Start`, opens its step at most once and before
      any of its parts, and ends in exactly one of four ways; a finished step
      was opened. */
  lemma {:induction false} StreamIsFramed(choice: ToolChoice, ds: seq<Delivery>) returns (ending: Ending)
    ensures EndsAs(Stream(choice, ds), ending)
    ensures forall other :: other != ending ==> !EndsAs(Stream(choice, ds), other)
  {
    hide WellFramed, NoEnding;
    var r := AfterDeliveries(choice, ds, |ds|);
    AfterFramed(choice, ds, |ds|);
    var out := Stream(choice, ds);
    FramedLength(r);
    if r.done {
      ending := if IsFatal(r.out[|r.out| - 1]) then Broken else WasAborted;
    } else if !r.con.terminal && !r.con.sawOutput {
      ending := WithoutOutput;
      assert out[..|out| - 1] == r.out;
      EndsWithError(r.out);
    } else {
      ending := Finished;
      EndsWithFinish(r.out, r.con.reason, r.con.usage);
    }
    forall other | other != ending ensures !EndsAs(out, other) {
      if ending == WithoutOutput { LastIsNotEnding(out); }
      if other == WithoutOutput { if NoEnding(out, |out|) { LastIsNotEnding(out); } }
    }
  }

  lemma {:induction false} FramedLength(r: Run)
    requires Framed(r)
    ensures |r.out| >= if r.done then 2 else 1
  {
  }

  lemma {:induction false} LastIsNotEnding(out: seq<Event>)
    requires out != [] && NoEnding(out, |out|)
    ensures !IsEnding(out[|out| - 1])
  {
  }

  lemma {:induction false} EndsWithError(out: seq<Event>)
    requires WellFramed(out) && NoEnding(out, |out|)
    ensures NoEnding(out + [Ok(OutError(NO_OUTPUT))], |out| + 1)
  {
  }

  lemma {:induction false} EndsWithFinish(out: seq<Event>, reason: FinishReason, usage: nat)
    requires WellFramed(out) && NoEnding(out, |out|) && StepOpenBefore(out, |out|)
    ensures var all := out + [Ok(FinishStep(reason, usage)), Ok(Finish(reason, usage))];
            |all| >= 3 && WellFramed(all) && NoEnding(all, |out|)
  {
    var all := out + [Ok(FinishStep(reason, usage)), Ok(Finish(reason, usage))];
    assert forall i :: 0 <= i < |out| ==> all[i] == out[i];
    var k :| 0 <= k < |out| && IsStartStep(out[k]);
    forall i | 0 <= i < |all| && IsOfStep(all[i]) ensures StepOpenBefore(all, i) {
      if i < |out| {
        var j :| 0 <= j < i && IsStartStep(out[j]);
        assert IsStartStep(all[j]);
      } else {
        assert IsStartStep(all[k]);
      }
    }
  }
}
