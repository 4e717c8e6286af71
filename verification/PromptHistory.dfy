/**
 The history check of the prompt: every client tool call needs a result, or an
 approval, before the next user or system message and before the end.
 */
module PromptHistory {
  import opened Wrappers
  import opened Content

  // ----- What the check sees

  /** A message, to the check: a client call, a tool result, or a turn of user or system. */
  datatype Event = CallMade(id: string) | ResultGiven(id: string) | Turn

  function Insert(open: seq<string>, id: string): seq<string> { if id in open then open else open + [id] }

  function Without(open: seq<string>, gone: set<string>): seq<string> {
    if open == [] then []
    else
      var rest, last := Without(open[..|open| - 1], gone), open[|open| - 1];
      if last in gone then rest else rest + [last]
  }

  /** The state of the scan: open calls, or the calls it failed for. */
  datatype Scan = Open(ids: seq<string>) | Missing(ids: seq<string>)

  function Check(open: seq<string>, approved: set<string>): Scan {
    var left := Without(open, approved);
    if left == [] then Open([]) else Missing(left)
  }

  function Next(s: Scan, e: Event, approved: set<string>): Scan {
    if s.Missing? then s
    else
      match e
      case CallMade(id) => Open(Insert(s.ids, id))
      case ResultGiven(id) => Open(Without(s.ids, {id}))
      case Turn => Check(s.ids, approved)
  }

  function After(events: seq<Event>, n: nat, approved: set<string>): Scan
    requires n <= |events|
  {
    if n == 0 then Open([]) else Next(After(events, n - 1, approved), events[n - 1], approved)
  }

  /** The whole check: the end counts as a turn. */
  function CheckEvents(events: seq<Event>, approved: set<string>): Result<(), AiError> {
    var s := After(events, |events|, approved);
    var last := if s.Missing? then s else Check(s.ids, approved);
    if last.Missing? then Err(MissingToolResults(last.ids)) else Ok(())
  }

  // ----- What it should say

  ghost predicate NoTurn(events: seq<Event>, i: int, n: int) {
    forall k :: i <= k < n && 0 <= k < |events| ==> !events[k].Turn?
  }

  /** The call at `i` has a later result before the next turn or the end. */
  ghost predicate Answered(events: seq<Event>, i: nat)
    requires i < |events| && events[i].CallMade?
  {
    exists j :: i < j < |events| && events[j] == ResultGiven(events[i].id) && NoTurn(events, i, j)
  }

  /** A call at `i` is open at `n`: no result of its id and no turn in between. */
  ghost predicate OpenSince(events: seq<Event>, id: string, i: nat, n: nat)
    requires n <= |events|
  {
    && i < n && events[i] == CallMade(id)
    && forall k :: i < k < n ==> events[k] != ResultGiven(id) && events[k] != Turn
  }

  /** Where the open call of an id was opened: its first call since it was last
      answered or a turn passed. */
  function OpenedAt(events: seq<Event>, id: string, n: nat): (i: Option<nat>)
    requires n <= |events|
    ensures i.Some? ==> i.value < n
  {
    if n == 0 || events[n - 1] == Turn || events[n - 1] == ResultGiven(id) then None
    else
      var before := OpenedAt(events, id, n - 1);
      if before.None? && events[n - 1] == CallMade(id) then Some(n - 1) else before
  }

  lemma {:induction false} OpenedAtIsFirst(events: seq<Event>, id: string, n: nat)
    requires n <= |events|
    ensures OpenedAt(events, id, n).None? <==> forall i :: !OpenSince(events, id, i, n)
    ensures OpenedAt(events, id, n).Some? ==>
              && OpenSince(events, id, OpenedAt(events, id, n).value, n)
              && forall i :: OpenSince(events, id, i, n) ==> OpenedAt(events, id, n).value <= i
  {
    if n > 0 {
      OpenedAtIsFirst(events, id, n - 1);
      var e, before := events[n - 1], OpenedAt(events, id, n - 1);
      if e != Turn && e != ResultGiven(id) {
        assert forall i: nat :: i < n - 1 ==> (OpenSince(events, id, i, n) <==> OpenSince(events, id, i, n - 1));
        assert OpenSince(events, id, n - 1, n) <==> e == CallMade(id);
        if before.Some? { assert OpenSince(events, id, before.value, n); }
      }
    }
  }

  /** The ids open at `n` but for those left out, each once, in the order they were opened. */
  ghost predicate Lists(ids: seq<string>, events: seq<Event>, n: nat, but: set<string>)
    requires n <= |events|
  {
    && (forall id :: id in ids <==> OpenedAt(events, id, n).Some? && id !in but)
    && (forall a, b :: 0 <= a < b < |ids| ==> OpensBefore(events, ids[a], ids[b], n))
  }

  predicate OpensBefore(events: seq<Event>, x: string, y: string, n: nat)
    requires n <= |events|
  {
    var i, j := OpenedAt(events, x, n), OpenedAt(events, y, n);
    i.Some? && j.Some? && i.value < j.value
  }

  // ----- The scan lists the open calls

  lemma {:induction false} WithoutIs(open: seq<string>, gone: set<string>)
    ensures forall id :: id in Without(open, gone) <==> id in open && id !in gone
  {
    if open != [] {
      WithoutIs(open[..|open| - 1], gone);
      assert open == open[..|open| - 1] + [open[|open| - 1]];
    }
  }

  /** Without some ids the order stays. */
  lemma {:induction false} WithoutLists(ids: seq<string>, gone: set<string>, events: seq<Event>, n: nat)
    requires n <= |events| && Ordered(ids, events, n)
    ensures Ordered(Without(ids, gone), events, n)
  {
    if ids != [] {
      var rest, last := ids[..|ids| - 1], ids[|ids| - 1];
      WithoutLists(rest, gone, events, n);
      WithoutIs(rest, gone);
      var left := Without(rest, gone);
      if last !in gone {
        forall a | 0 <= a < |left| ensures OpensBefore(events, left[a], last, n) {
          assert left[a] in left;
          var i :| 0 <= i < |rest| && rest[i] == left[a];
          assert ids[i] == left[a];
        }
      }
    }
  }

  ghost predicate Ordered(ids: seq<string>, events: seq<Event>, n: nat)
    requires n <= |events|
  {
    forall a, b :: 0 <= a < b < |ids| ==> OpensBefore(events, ids[a], ids[b], n)
  }

  lemma {:induction false} CheckLists(ids: seq<string>, approved: set<string>, events: seq<Event>, n: nat)
    requires n <= |events| && Lists(ids, events, n, {})
    ensures Lists(Without(ids, approved), events, n, approved)
  {
    WithoutIs(ids, approved);
    assert Ordered(ids, events, n);
    WithoutLists(ids, approved, events, n);
  }

  /** Every unapproved open call at a turn before `n` was answered. */
  ghost predicate Clean(events: seq<Event>, n: nat, approved: set<string>)
    requires n <= |events|
  {
    forall m :: 0 <= m < n && events[m] == Turn ==> NothingMissing(events, m, approved)
  }

  ghost predicate NothingMissing(events: seq<Event>, m: nat, approved: set<string>)
    requires m <= |events|
  {
    forall id :: OpenedAt(events, id, m).Some? ==> id in approved
  }

  /** `m` is the first turn, or the end, with a call missing: these are the ids. */
  ghost predicate FirstMissing(ids: seq<string>, events: seq<Event>, m: nat, approved: set<string>) {
    && m <= |events| && (m == |events| || events[m] == Turn)
    && Clean(events, m, approved)
    && ids != [] && Lists(ids, events, m, approved)
  }

  lemma {:induction false} InsertLists(events: seq<Event>, n: nat, ids: seq<string>)
    requires n < |events| && events[n].CallMade? && Lists(ids, events, n, {})
    ensures Lists(Insert(ids, events[n].id), events, n + 1, {})
  {
    var id := events[n].id;
    var ids' := Insert(ids, id);
    assert forall k :: k != id ==> OpenedAt(events, k, n + 1) == OpenedAt(events, k, n);
    assert OpenedAt(events, id, n + 1) == if id in ids then OpenedAt(events, id, n) else Some(n);
    forall a, b | 0 <= a < b < |ids'| ensures OpensBefore(events, ids'[a], ids'[b], n + 1) {
      if b < |ids| {
        assert OpensBefore(events, ids[a], ids[b], n);
      } else {
        assert ids[a] in ids;
      }
    }
  }

  lemma {:induction false} RemoveLists(events: seq<Event>, n: nat, ids: seq<string>)
    requires n < |events| && events[n].ResultGiven? && Lists(ids, events, n, {})
    ensures Lists(Without(ids, {events[n].id}), events, n + 1, {})
  {
    var gone := {events[n].id};
    CheckLists(ids, gone, events, n);
    assert forall k :: k !in gone ==> OpenedAt(events, k, n + 1) == OpenedAt(events, k, n);
    var ids' := Without(ids, gone);
    forall a, b | 0 <= a < b < |ids'| ensures OpensBefore(events, ids'[a], ids'[b], n + 1) {
      assert ids'[a] in ids' && ids'[b] in ids';
      assert OpensBefore(events, ids'[a], ids'[b], n);
    }
  }

  ghost predicate ScanIs(s: Scan, events: seq<Event>, n: nat, approved: set<string>, m: nat)
    requires n <= |events|
  {
    if s.Open? then Lists(s.ids, events, n, {}) && Clean(events, n, approved)
    else m < n && FirstMissing(s.ids, events, m, approved)
  }

  lemma {:induction false} NextIs(s: Scan, events: seq<Event>, n: nat, approved: set<string>) returns (m: nat)
    requires n < |events| && s.Open? && ScanIs(s, events, n, approved, 0)
    ensures ScanIs(Next(s, events[n], approved), events, n + 1, approved, m)
  {
    m := n;
    match events[n]
    case CallMade(id) =>
      InsertLists(events, n, s.ids);
      hide Lists, NothingMissing, Insert;
    case ResultGiven(id) =>
      RemoveLists(events, n, s.ids);
      hide Lists, NothingMissing, Without;
    case Turn =>
      CheckLists(s.ids, approved, events, n);
      TurnLists(s.ids, events, n, approved);
      hide Lists, NothingMissing, Without;
  }

  lemma {:induction false} ScanLists(events: seq<Event>, n: nat, approved: set<string>) returns (m: nat)
    requires n <= |events|
    ensures ScanIs(After(events, n, approved), events, n, approved, m)
  {
    m := 0;
    if n > 0 {
      m := ScanLists(events, n - 1, approved);
      if After(events, n - 1, approved).Open? { m := NextIs(After(events, n - 1, approved), events, n - 1, approved); }
      hide Lists, Clean;
    }
  }

  lemma {:induction false} TurnLists(ids: seq<string>, events: seq<Event>, n: nat, approved: set<string>)
    requires n <= |events| && Lists(Without(ids, approved), events, n, approved)
    ensures Without(ids, approved) == [] <==> NothingMissing(events, n, approved)
    ensures n < |events| && events[n] == Turn ==> Lists([], events, n + 1, {})
  {
    var left := Without(ids, approved);
    if left != [] { assert left[0] in left; }
    if !NothingMissing(events, n, approved) {
      var id :| OpenedAt(events, id, n).Some? && id !in approved;
      assert id in left;
    }
  }

  // ----- The check is the rule

  /** The ids are listed once each. */
  lemma {:induction false} ListedOnce(ids: seq<string>, events: seq<Event>, n: nat, but: set<string>)
    requires n <= |events| && Lists(ids, events, n, but)
    ensures forall a, b :: 0 <= a < b < |ids| ==> ids[a] != ids[b]
  {
    forall a, b | 0 <= a < b < |ids| ensures ids[a] != ids[b] { assert OpensBefore(events, ids[a], ids[b], n); }
  }

  /** At the place where a segment of the history ends. */
  predicate IsEnd(events: seq<Event>, m: nat) { m == |events| || (m < |events| && events[m] == Turn) }

  /** A call that is not answered is open where its segment ends, and an open
      call there is one that is not answered. */
  lemma {:induction false} UnansweredIsOpen(events: seq<Event>, i: nat) returns (m: nat)
    requires i < |events| && events[i].CallMade? && !Answered(events, i)
    ensures i < m <= |events| && IsEnd(events, m)
    ensures OpenedAt(events, events[i].id, m).Some? && OpenedAt(events, events[i].id, m).value <= i
  {
    m := i + 1;
    while m < |events| && events[m] != Turn
      invariant i < m <= |events| && forall k :: i <= k < m ==> events[k] != Turn
    {
      m := m + 1;
    }
    var id := events[i].id;
    forall k | i < k < m ensures events[k] != ResultGiven(id) {
      if events[k] == ResultGiven(id) { assert NoTurn(events, i, k); }
    }
    assert OpenSince(events, id, i, m);
    OpenedAtIsFirst(events, id, m);
  }

  lemma {:induction false} OpenIsUnanswered(events: seq<Event>, id: string, m: nat) returns (i: nat)
    requires m <= |events| && IsEnd(events, m) && OpenedAt(events, id, m).Some?
    ensures i < |events| && events[i] == CallMade(id) && !Answered(events, i) && OpenedAt(events, id, m) == Some(i)
  {
    OpenedAtIsFirst(events, id, m);
    i := OpenedAt(events, id, m).value;
    if Answered(events, i) {
      var j :| i < j < |events| && events[j] == ResultGiven(events[i].id) && NoTurn(events, i, j);
      assert false;
    }
  }

  ghost predicate AllAnswered(events: seq<Event>, approved: set<string>) {
    forall i :: 0 <= i < |events| && events[i].CallMade? && events[i].id !in approved ==> Answered(events, i)
  }

  /** The check accepts exactly the histories in which every unapproved client
      call has a later result before the next turn or the end; otherwise it
      names the calls that are open at the first turn (or end) with one
      missing, each once, in the order they were opened. */
  lemma {:induction false} CheckIsTheRule(events: seq<Event>, approved: set<string>)
    ensures CheckEvents(events, approved).Ok? <==> AllAnswered(events, approved)
    ensures CheckEvents(events, approved).Err? ==>
              && CheckEvents(events, approved).error.MissingToolResults?
              && exists m :: FirstMissing(CheckEvents(events, approved).error.toolCallIds, events, m, approved)
  {
    var n := |events|;
    var m := ScanLists(events, n, approved);
    var s := After(events, n, approved);
    if s.Open? {
      CheckLists(s.ids, approved, events, n);
      TurnLists(s.ids, events, n, approved);
      m := n;
    }
    var ok := CheckEvents(events, approved).Ok?;
    if ok {
      EveryCallAnswered(events, approved);
    } else {
      var ids := CheckEvents(events, approved).error.toolCallIds;
      assert FirstMissing(ids, events, m, approved);
      assert ids[0] in ids;
      var i := OpenIsUnanswered(events, ids[0], m);
      assert !AllAnswered(events, approved);
    }
  }

  lemma {:induction false} EveryCallAnswered(events: seq<Event>, approved: set<string>)
    requires Clean(events, |events|, approved) && NothingMissing(events, |events|, approved)
    ensures AllAnswered(events, approved)
  {
    forall i | 0 <= i < |events| && events[i].CallMade? && events[i].id !in approved ensures Answered(events, i) {
      if !Answered(events, i) {
        var m := UnansweredIsOpen(events, i);
        assert false;
      }
    }
  }

  // ----- A history that goes on

  /** Every unapproved call of the first events has its result in all of them. */
  ghost predicate StaysAnswered(before: seq<Event>, more: seq<Event>, approved: set<string>) {
    forall i :: 0 <= i < |before| && before[i].CallMade? && before[i].id !in approved ==> IsAnswered(before + more, i)
  }

  ghost predicate IsAnswered(events: seq<Event>, i: nat) { i < |events| && events[i].CallMade? && Answered(events, i) }

  /** The ids are those of calls opened at or after `n`. */
  ghost predicate OpenedFrom(ids: seq<string>, events: seq<Event>, m: nat, n: nat)
    requires m <= |events|
  {
    forall id :: id in ids ==> OpenedAt(events, id, m).Some? && OpenedAt(events, id, m).value >= n
  }

  /** When events without a turn follow, all ids that are then missing were
      opened by them if and only if the calls before them stay answered. */
  lemma {:induction false} OnlyNewCallsMissing(before: seq<Event>, more: seq<Event>, approved: set<string>, ids: seq<string>, m: nat)
    requires FirstMissing(ids, before + more, m, approved)
    requires forall k :: 0 <= k < |more| ==> more[k] != Turn
    ensures OpenedFrom(ids, before + more, m, |before|) <==> StaysAnswered(before, more, approved)
  {
    var all := before + more;
    assert forall k :: 0 <= k < |before| ==> before[k] == all[k];
    if StaysAnswered(before, more, approved) {
      forall id | id in ids ensures OpenedAt(all, id, m).Some? && OpenedAt(all, id, m).value >= |before| {
        var i := OpenIsUnanswered(all, id, m);
      }
    } else {
      var i :| 0 <= i < |before| && before[i].CallMade? && before[i].id !in approved && !IsAnswered(all, i);
      assert all[i] == before[i];
      var end := UnansweredIsOpen(all, i);
      if end != m {
        EndsLater(before, more, approved, ids, m, end, all[i].id);
        assert ids[0] in ids;
      } else {
        assert all[i].id in ids;
      }
    }
  }

  /** Another end with a missing call comes after the first, which is then a turn of the first events. */
  lemma {:induction false} EndsLater(before: seq<Event>, more: seq<Event>, approved: set<string>, ids: seq<string>,
                                     m: nat, end: nat, id: string)
    requires FirstMissing(ids, before + more, m, approved) && end != m
    requires forall k :: 0 <= k < |more| ==> more[k] != Turn
    requires end <= |before + more| && IsEnd(before + more, end) && id !in approved
    requires OpenedAt(before + more, id, end).Some?
    ensures m < |before|
  {
    var all := before + more;
    assert forall k :: |before| <= k < |all| ==> all[k] == more[k - |before|];
  }

  lemma {:induction false} AllAnsweredStays(before: seq<Event>, more: seq<Event>, approved: set<string>)
    requires AllAnswered(before + more, approved)
    ensures StaysAnswered(before, more, approved)
  {
    forall i | 0 <= i < |before| && before[i].CallMade? && before[i].id !in approved ensures IsAnswered(before + more, i) {
      assert (before + more)[i] == before[i];
    }
  }

  /** Calls that were all answered stay so when no approval goes. */
  lemma {:induction false} AnsweredStays(before: seq<Event>, more: seq<Event>, approved: set<string>, later: set<string>)
    requires AllAnswered(before, approved) && approved <= later
    ensures StaysAnswered(before, more, later)
  {
    var all := before + more;
    forall i | 0 <= i < |before| && before[i].CallMade? && before[i].id !in later ensures IsAnswered(all, i) {
      assert Answered(before, i);
      var j :| i < j < |before| && before[j] == ResultGiven(before[i].id) && NoTurn(before, i, j);
      assert all[i] == before[i] && all[j] == before[j];
      assert NoTurn(all, i, j);
    }
  }
}
