/**
 The scanner of the upstream TypeScript, which reads UTF-16 code units, and the
 proof that `fix_json`, which reads characters and marks byte offsets, returns
 the same text for every input.
 */
module JsonUtf16 {
  import opened Wrappers
  import opened JsonScanner

  /** A code unit: a character of its own, or half of a surrogate pair. */
  datatype Unit = Bmp(c: char) | Half(code: int)

  function Encode(t: string): seq<Unit> {
    if t == [] then [] else Encode(t[..|t| - 1]) + UnitsOf(t[|t| - 1])
  }

  function UnitsOf(c: char): seq<Unit> {
    if IsWide(c)
    then [Half(0xD800 + (c as int - 0x10000) / 0x400), Half(0xDC00 + (c as int - 0x10000) % 0x400)]
    else [Bmp(c)]
  }

  /** A surrogate half matches no token, so it takes the default arms. */
  function StepUnit(st: State, end: nat, u: Unit): State {
    match u
    case Bmp(c) => Step(st, end, c)
    case Half(_) =>
      match st.open
      case Empty => st
      case Push(Object(_), _) => st
      case Push(Array(pos), _) => if pos.ArrAfterComma? then st else State(st.open, end)
      case Push(Str(Plain), _) => State(st.open, end)
      case Push(Str(Escape), below) => State(Push(Str(Plain), below), end)
      case Push(Str(UnicodeEscape(_)), _) => st
      case Push(_, below) => State(below, st.mark)
  }

  function UnitOpens(u: Unit): Option<Frame> { if u.Bmp? then OpenedBy(u.c) else None }

  function RunUnits(st: State, us: seq<Unit>, i: nat, j: nat): (r: State)
    requires i <= j <= |us|
    ensures st.mark <= i ==> r.mark <= j
    decreases j
  {
    if i == j then st else StepUnit(RunUnits(st, us, i, j - 1), j, us[j - 1])
  }

  function FirstUnitOpener(us: seq<Unit>, i: nat): (k: nat)
    requires i <= |us|
    ensures i <= k <= |us|
    ensures k < |us| ==> UnitOpens(us[k]).Some?
    decreases |us| - i
  {
    if i == |us| || UnitOpens(us[i]).Some? then i else FirstUnitOpener(us, i + 1)
  }

  function ScanUnits(us: seq<Unit>): (st: State)
    ensures st.mark <= |us|
  {
    var k := FirstUnitOpener(us, 0);
    if k == |us| then State(Empty, 0)
    else RunUnits(OpenValue(State(Empty, 0), k + 1, us[k].c, UnitOpens(us[k]).value), us, k + 1, |us|)
  }

  function FixedUnits(us: seq<Unit>): seq<Unit> {
    us[..ScanUnits(us).mark] + Encode(Closers(ScanUnits(us).open))
  }

  // ----- The refinement

  /** The unit offset of the character at index `k`. */
  function UnitOffset(t: string, k: nat): (n: nat)
    requires k <= |t|
  {
    if k == 0 then 0 else UnitOffset(t, k - 1) + if IsWide(t[k - 1]) then 2 else 1
  }

  lemma {:induction false} EncodePrefix(t: string, k: nat)
    requires k <= |t|
    ensures |Encode(t)| == UnitOffset(t, |t|)
    ensures UnitOffset(t, k) <= |Encode(t)|
    ensures Encode(t)[..UnitOffset(t, k)] == Encode(t[..k])
  {
    if t == [] {
    } else {
      var n := |t| - 1;
      EncodePrefix(t[..n], if k <= n then k else n);
      SameOffset(t, n, n);
      if k <= n {
        assert t[..n][..k] == t[..k];
        SameOffset(t, n, k);
      } else {
        assert t[..k] == t;
      }
    }
  }

  lemma {:induction false} SameOffset(t: string, n: nat, k: nat)
    requires k <= n <= |t|
    ensures UnitOffset(t[..n], k) == UnitOffset(t, k)
  {
    if k > 0 { SameOffset(t, n, k - 1); }
  }

  lemma {:induction false} EncodeAt(t: string, k: nat)
    requires k < |t|
    ensures UnitOffset(t, k + 1) <= |Encode(t)| == UnitOffset(t, |t|)
    ensures Encode(t)[UnitOffset(t, k)] == UnitsOf(t[k])[0]
    ensures IsWide(t[k]) ==> Encode(t)[UnitOffset(t, k) + 1] == UnitsOf(t[k])[1]
  {
    EncodePrefix(t, k);
    EncodePrefix(t, k + 1);
    assert t[..k + 1][..k] == t[..k];
    var u := UnitOffset(t, k);
    assert Encode(t[..k + 1]) == Encode(t[..k]) + UnitsOf(t[k]);
    assert Encode(t)[..UnitOffset(t, k + 1)][u] == Encode(t)[u];
    if IsWide(t[k]) {
      assert Encode(t)[..UnitOffset(t, k + 1)][u + 1] == Encode(t)[u + 1];
    }
  }

  lemma {:induction false} EncodeAppend(a: string, b: string)
    ensures Encode(a + b) == Encode(a) + Encode(b)
  {
    if b == [] {
      assert a + b == a;
    } else {
      assert (a + b)[..|a + b| - 1] == a + b[..|b| - 1];
      EncodeAppend(a, b[..|b| - 1]);
    }
  }

  /** A state whose mark counts characters, with the mark in code units. */
  ghost function InUnits(t: string, st: State): State
    requires st.mark <= |t|
  {
    State(st.open, UnitOffset(t, st.mark))
  }

  /** Stepping the two halves is stepping the character twice: a mark on the
      first half is always moved on by the second. */
  lemma {:induction false} HalvesStepAlike(st: State, end: nat, c: char, hi: int, lo: int)
    requires IsWide(c)
    ensures StepUnit(StepUnit(st, end, Half(hi)), end + 1, Half(lo)) == StepChar(st, end + 1, c)
  {
    DefaultStep(st, end + 1, c, hi);
    DefaultStep(Step(st, end + 1, c), end + 1, c, lo);
  }

  lemma {:induction false} DefaultStep(st: State, end: nat, c: char, h: int)
    requires IsWide(c)
    ensures Step(st, end, c) == StepUnit(st, end, Half(h))
  {
    match st.open
    case Empty =>
    case Push(Object(_), _) =>
    case Push(Array(_), _) =>
    case Push(Str(_), _) =>
    case Push(Number, below) =>
    case Push(Literal(_), below) =>
  }

  lemma {:induction false} StepInUnits(t: string, st: State, at: nat)
    requires st.mark <= at < |t|
    ensures UnitOffset(t, at + 1) <= |Encode(t)|
    ensures StepChar(st, at + 1, t[at]).mark <= at + 1
    ensures RunUnits(InUnits(t, st), Encode(t), UnitOffset(t, at), UnitOffset(t, at + 1))
         == InUnits(t, StepChar(st, at + 1, t[at]))
  {
    var c, u, us, st' := t[at], UnitOffset(t, at), Encode(t), InUnits(t, st);
    EncodeAt(t, at);
    StepCharMarks(st, at + 1, c);
    StepCharMarks(st', UnitOffset(t, at + 1), c);
    assert RunUnits(st', us, u, u) == st';
    assert RunUnits(st', us, u, u + 1) == StepUnit(st', u + 1, us[u]);
    if IsWide(c) {
      HalvesStepAlike(st', u + 1, c, us[u].code, us[u + 1].code);
      assert RunUnits(st', us, u, u + 2) == StepUnit(StepUnit(st', u + 1, us[u]), u + 2, us[u + 1]);
    }
  }

  lemma {:induction false} RunUnitsCompose(st: State, us: seq<Unit>, i: nat, j: nat, k: nat)
    requires i <= j <= k <= |us|
    ensures RunUnits(RunUnits(st, us, i, j), us, j, k) == RunUnits(st, us, i, k)
    decreases k
  {
    if j < k { RunUnitsCompose(st, us, i, j, k - 1); }
  }

  lemma {:induction false} RunInUnits(t: string, st: State, i: nat, j: nat)
    requires st.mark <= i <= j <= |t|
    ensures UnitOffset(t, i) <= UnitOffset(t, j) <= |Encode(t)|
    ensures RunUnits(InUnits(t, st), Encode(t), UnitOffset(t, i), UnitOffset(t, j))
         == InUnits(t, Run(st, t, i, j))
    decreases j
  {
    hide StepChar, StepUnit, Encode;
    EncodePrefix(t, i);
    if i < j {
      RunInUnits(t, st, i, j - 1);
      StepInUnits(t, Run(st, t, i, j - 1), j - 1);
      RunUnitsCompose(InUnits(t, st), Encode(t), UnitOffset(t, i), UnitOffset(t, j - 1), UnitOffset(t, j));
    }
  }

  lemma {:induction false} OpenerInUnits(t: string, i: nat)
    requires i <= |t|
    ensures UnitOffset(t, i) <= |Encode(t)|
    ensures FirstUnitOpener(Encode(t), UnitOffset(t, i)) == UnitOffset(t, FirstOpener(t, i))
    decreases |t| - i
  {
    EncodePrefix(t, i);
    if i < |t| {
      EncodeAt(t, i);
      if OpenedBy(t[i]).None? {
        OpenerInUnits(t, i + 1);
      }
    }
  }

  lemma {:induction false} ScanInUnits(t: string)
    ensures ScanUnits(Encode(t)) == InUnits(t, Scan(t))
  {
    hide StepChar, StepUnit, Encode;
    var k := FirstOpener(t, 0);
    OpenerInUnits(t, 0);
    EncodePrefix(t, k);
    if k < |t| {
      EncodeAt(t, k);
      RunInUnits(t, OpenValue(State(Empty, 0), k + 1, t[k], OpenedBy(t[k]).value), k + 1, |t|);
    }
  }

  /** The port and the upstream scanner agree on every input, marks included. */
  lemma {:induction false} PortMatchesUpstream(t: string)
    ensures ScanUnits(Encode(t)) == InUnits(t, Scan(t))
    ensures Encode(Fixed(t)) == FixedUnits(Encode(t))
  {
    hide Scan, ScanUnits;
    ScanInUnits(t);
    EncodePrefix(t, Scan(t).mark);
    EncodeAppend(t[..Scan(t).mark], Closers(Scan(t).open));
  }
}
