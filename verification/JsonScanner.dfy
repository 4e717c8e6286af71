/**
 The scanner of `fix_json`: open values, the keepable prefix and the closing
 tokens, first as functions of a scanner state and then as the in-place code.

 A step is told `end`, the position just after the character it reads, in
 whatever unit the caller counts in: characters, UTF-8 bytes or UTF-16 units.
 */
module JsonScanner {
  import opened Wrappers

  datatype ObjectPos = ObjStart | Key | AfterKey | BeforeValue | ObjAfterValue | ObjAfterComma
  datatype ArrayPos = ArrStart | ArrAfterValue | ArrAfterComma
  datatype StringPos = Plain | Escape | UnicodeEscape(digits: nat)

  datatype Frame =
    | Object(objectPos: ObjectPos)
    | Array(arrayPos: ArrayPos)
    | Str(stringPos: StringPos)
    | Number
    | Literal(rest: Word)

  /** The part of `true`, `false` or `null` not seen yet: no wide characters. */
  type Word = s: string | NoneWide(s)

  predicate NoneWide(s: string) { forall k :: 0 <= k < |s| ==> !IsWide(s[k]) }

  /** Open values, innermost on top. */
  datatype Stack = Empty | Push(top: Frame, below: Stack)

  datatype State = State(open: Stack, mark: nat)

  function OpenedBy(c: char): Option<Frame> {
    if c == '"' then Some(Str(Plain))
    else if c == 'f' then Some(Literal("alse"))
    else if c == 't' then Some(Literal("rue"))
    else if c == 'n' then Some(Literal("ull"))
    else if c == '-' || '0' <= c <= '9' then Some(Number)
    else if c == '{' then Some(Object(ObjStart))
    else if c == '[' then Some(Array(ArrStart))
    else None
  }

  function Closing(f: Frame): string {
    match f
    case Object(_) => "}"
    case Array(_) => "]"
    case Str(_) => "\""
    case Number => ""
    case Literal(rest) => rest
  }

  /** The closing tokens of all open values, innermost first. */
  function Closers(open: Stack): string {
    match open
    case Empty => ""
    case Push(f, below) => Closing(f) + Closers(below)
  }

  function OpenValue(st: State, end: nat, c: char, f: Frame): State {
    State(Push(f, st.open), if c != '-' then end else st.mark)
  }

  function AfterValue(st: State, end: nat, c: char): State {
    match st.open
    case Push(Object(ObjAfterValue), below) =>
      if c == ',' then State(Push(Object(ObjAfterComma), below), st.mark)
      else if c == '}' then State(below, end)
      else st
    case Push(Array(ArrAfterValue), below) =>
      if c == ',' then State(Push(Array(ArrAfterComma), below), st.mark)
      else if c == ']' then State(below, end)
      else st
    case _ => st
  }

  function EndScalar(st: State, end: nat, c: char): State
    requires st.open.Push?
  {
    AfterValue(State(st.open.below, st.mark), end, c)
  }

  predicate IsAsciiHex(c: char) { '0' <= c <= '9' || 'a' <= c <= 'f' || 'A' <= c <= 'F' }

  /** One step; on an empty stack the scan is over and nothing changes. */
  function Step(st: State, end: nat, c: char): State {
    match st.open
    case Empty => st
    case Push(Object(pos), below) => StepObject(st, pos, below, end, c)
    case Push(Array(pos), below) => StepArray(st, pos, below, end, c)
    case Push(Str(pos), below) => StepString(st, pos, below, end, c)
    case Push(Number, below) =>
      if '0' <= c <= '9' then State(st.open, end)
      else if c == 'e' || c == 'E' || c == '-' || c == '.' then st
      else EndScalar(st, end, c)
    case Push(Literal(rest), below) =>
      if rest != [] && rest[0] == c then State(Push(Literal(rest[1..]), below), end)
      else EndScalar(st, end, c)
  }

  function StepObject(st: State, pos: ObjectPos, below: Stack, end: nat, c: char): State
    requires st.open == Push(Object(pos), below)
  {
    match pos
    case ObjStart =>
      if c == '"' then State(Push(Object(Key), below), st.mark)
      else if c == '}' then State(below, end)
      else st
    case ObjAfterComma => if c == '"' then State(Push(Object(Key), below), st.mark) else st
    case Key => if c == '"' then State(Push(Object(AfterKey), below), st.mark) else st
    case AfterKey => if c == ':' then State(Push(Object(BeforeValue), below), st.mark) else st
    case BeforeValue =>
      if OpenedBy(c).Some?
      then OpenValue(State(Push(Object(ObjAfterValue), below), st.mark), end, c, OpenedBy(c).value)
      else st
    case ObjAfterValue => AfterValue(st, end, c)
  }

  function StepArray(st: State, pos: ArrayPos, below: Stack, end: nat, c: char): State
    requires st.open == Push(Array(pos), below)
  {
    match pos
    case ArrStart =>
      if c == ']' then State(below, end)
      else if OpenedBy(c).Some?
      then OpenValue(State(Push(Array(ArrAfterValue), below), st.mark), end, c, OpenedBy(c).value).(mark := end)
      else State(st.open, end)
    case ArrAfterValue =>
      if c == ']' then State(below, end)
      else if c == ',' then State(Push(Array(ArrAfterComma), below), st.mark)
      else State(st.open, end)
    case ArrAfterComma =>
      if OpenedBy(c).Some?
      then OpenValue(State(Push(Array(ArrAfterValue), below), st.mark), end, c, OpenedBy(c).value)
      else st
  }

  function StepString(st: State, pos: StringPos, below: Stack, end: nat, c: char): State
    requires st.open == Push(Str(pos), below)
  {
    match pos
    case Plain =>
      if c == '"' then State(below, end)
      else if c == '\\' then State(Push(Str(Escape), below), st.mark)
      else State(st.open, end)
    case Escape =>
      if c == 'u' then State(Push(Str(UnicodeEscape(0)), below), st.mark)
      else State(Push(Str(Plain), below), end)
    case UnicodeEscape(digits) =>
      if !IsAsciiHex(c) then st
      else if digits == 3 then State(Push(Str(Plain), below), end)
      else State(Push(Str(UnicodeEscape(digits + 1)), below), st.mark)
  }

  predicate IsWide(c: char) { c as int >= 0x10000 }

  /** A character outside the Basic Multilingual Plane takes two steps. */
  function StepChar(st: State, end: nat, c: char): State {
    var once := Step(st, end, c);
    if IsWide(c) then Step(once, end, c) else once
  }

  /** The scan of `t[i..j]`, positions counted in characters. */
  function Run(st: State, t: string, i: nat, j: nat): (r: State)
    requires i <= j <= |t|
    ensures st.mark <= i ==> r.mark <= j
    decreases j
  {
    if i == j then st else StepChar(Run(st, t, i, j - 1), j, t[j - 1])
  }

  /** The first character at or after `i` that starts a value, or the length. */
  function FirstOpener(t: string, i: nat): (k: nat)
    requires i <= |t|
    ensures i <= k <= |t|
    ensures k < |t| ==> OpenedBy(t[k]).Some?
    decreases |t| - i
  {
    if i == |t| || OpenedBy(t[i]).Some? then i else FirstOpener(t, i + 1)
  }

  /** The state after the whole input. */
  function Scan(t: string): (st: State)
    ensures st.mark <= |t|
  {
    var k := FirstOpener(t, 0);
    if k == |t| then State(Empty, 0)
    else Run(OpenValue(State(Empty, 0), k + 1, t[k], OpenedBy(t[k]).value), t, k + 1, |t|)
  }

  /** What `fix_json` returns: the keepable prefix and the closing tokens. */
  function Fixed(t: string): string { t[..Scan(t).mark] + Closers(Scan(t).open) }

  // ----- The code, on a vector of frames and UTF-8 byte offsets

  function Utf8Len(c: char): (n: nat)
    ensures 1 <= n <= 4
  {
    var code := c as int;
    if code < 0x80 then 1 else if code < 0x800 then 2 else if code < 0x10000 then 3 else 4
  }

  /** The byte offset of the character at index `k`. */
  function ByteOffset(t: string, k: nat): (n: nat)
    requires k <= |t|
    ensures k <= n
  {
    if k == 0 then 0 else ByteOffset(t, k - 1) + Utf8Len(t[k - 1])
  }

  /** The index of the character boundary at byte `bytes`. */
  function BoundaryAt(t: string, k: nat, bytes: nat): (b: nat)
    requires k <= |t|
    requires exists l: nat :: l <= k && ByteOffset(t, l) == bytes
    ensures b <= |t| && ByteOffset(t, b) == bytes
  {
    if ByteOffset(t, k) == bytes then k else BoundaryAt(t, k - 1, bytes)
  }

  lemma {:induction false} ByteOffsetGrows(t: string, k: nat, l: nat)
    requires k < l <= |t|
    ensures ByteOffset(t, k) < ByteOffset(t, l)
  {
    if k < l - 1 { ByteOffsetGrows(t, k, l - 1); }
  }

  class Repair {
    var open: seq<Frame>
    var validLen: nat

    ghost function View(): State
      reads this
    {
      State(AsStack(open), validLen)
    }

    constructor ()
      ensures open == [] && validLen == 0
    {
      open, validLen := [], 0;
    }

    method Mark(i: nat, c: char)
      modifies `validLen
      ensures validLen == i + Utf8Len(c)
    {
      validLen := i + Utf8Len(c);
    }

    method SetTop(f: Frame)
      requires open != []
      modifies `open
      ensures AsStack(open) == Push(f, AsStack(old(open)).below)
    {
      open := open[..|open| - 1] + [f];
      assert open[..|open| - 1] == old(open)[..|open| - 1];
    }

    method Close(i: nat, c: char)
      requires open != []
      modifies this
      ensures View() == State(AsStack(old(open)).below, i + Utf8Len(c))
    {
      Mark(i, c);
      open := open[..|open| - 1];
    }

    method PushValue(i: nat, c: char, f: Frame)
      modifies this
      ensures View() == OpenValue(old(View()), i + Utf8Len(c), c, f)
    {
      if c != '-' {
        Mark(i, c);
      }
      open := open + [f];
      assert open[..|open| - 1] == old(open);
    }

    method PassAfterValue(i: nat, c: char)
      modifies this
      ensures View() == AfterValue(old(View()), i + Utf8Len(c), c)
    {
      if open == [] {
        return;
      }
      var top := open[|open| - 1];
      if top == Object(ObjAfterValue) && c == ',' {
        SetTop(Object(ObjAfterComma));
      } else if top == Array(ArrAfterValue) && c == ',' {
        SetTop(Array(ArrAfterComma));
      } else if (top == Object(ObjAfterValue) && c == '}') || (top == Array(ArrAfterValue) && c == ']') {
        Close(i, c);
      }
    }

    method PopScalar(i: nat, c: char)
      requires open != []
      modifies this
      ensures View() == EndScalar(old(View()), i + Utf8Len(c), c)
    {
      open := open[..|open| - 1];
      PassAfterValue(i, c);
    }

    /** `over` once the top-level value has closed: the scan breaks off. */
    method Feed(i: nat, c: char) returns (over: bool)
      modifies this
      ensures over == (old(open) == [])
      ensures View() == Step(old(View()), i + Utf8Len(c), c)
    {
      if open == [] {
        return true;
      }
      over := false;
      match open[|open| - 1]
      case Object(pos) => FeedObject(i, c, pos);
      case Array(pos) => FeedArray(i, c, pos);
      case Str(pos) => FeedString(i, c, pos);
      case Number =>
        if '0' <= c <= '9' {
          Mark(i, c);
        } else if !(c == 'e' || c == 'E' || c == '-' || c == '.') {
          PopScalar(i, c);
        }
      case Literal(rest) =>
        if rest != [] && rest[0] == c {
          SetTop(Literal(rest[1..]));
          Mark(i, c);
        } else {
          PopScalar(i, c);
        }
    }

    /** One step, or two for a character that is two UTF-16 code units. */
    method FeedChar(i: nat, c: char) returns (over: bool)
      modifies this
      ensures over ==> open == []
      ensures View() == StepChar(old(View()), i + Utf8Len(c), c)
    {
      over := Feed(i, c);
      if !over && IsWide(c) {
        over := Feed(i, c);
      }
    }

    method FeedObject(i: nat, c: char, pos: ObjectPos)
      requires open != [] && open[|open| - 1] == Object(pos)
      modifies this
      ensures View() == Step(old(View()), i + Utf8Len(c), c)
    {
      if (pos.ObjStart? || pos.ObjAfterComma?) && c == '"' {
        SetTop(Object(Key));
      } else if pos.ObjStart? && c == '}' {
        Close(i, c);
      } else if pos.Key? && c == '"' {
        SetTop(Object(AfterKey));
      } else if pos.AfterKey? && c == ':' {
        SetTop(Object(BeforeValue));
      } else if pos.BeforeValue? {
        if OpenedBy(c).Some? {
          SetTop(Object(ObjAfterValue));
          PushValue(i, c, OpenedBy(c).value);
        }
      } else if pos.ObjAfterValue? {
        PassAfterValue(i, c);
      }
    }

    method FeedArray(i: nat, c: char, pos: ArrayPos)
      requires open != [] && open[|open| - 1] == Array(pos)
      modifies this
      ensures View() == Step(old(View()), i + Utf8Len(c), c)
    {
      if (pos.ArrStart? || pos.ArrAfterValue?) && c == ']' {
        Close(i, c);
      } else if pos.ArrStart? {
        if OpenedBy(c).Some? {
          SetTop(Array(ArrAfterValue));
          PushValue(i, c, OpenedBy(c).value);
        }
        Mark(i, c);
      } else if pos.ArrAfterValue? && c == ',' {
        SetTop(Array(ArrAfterComma));
      } else if pos.ArrAfterValue? {
        Mark(i, c);
      } else if OpenedBy(c).Some? {
        SetTop(Array(ArrAfterValue));
        PushValue(i, c, OpenedBy(c).value);
      }
    }

    method FeedString(i: nat, c: char, pos: StringPos)
      requires open != [] && open[|open| - 1] == Str(pos)
      modifies this
      ensures View() == Step(old(View()), i + Utf8Len(c), c)
    {
      match pos
      case Plain =>
        if c == '"' {
          Close(i, c);
        } else if c == '\\' {
          SetTop(Str(Escape));
        } else {
          Mark(i, c);
        }
      case Escape =>
        if c == 'u' {
          SetTop(Str(UnicodeEscape(0)));
        } else {
          SetTop(Str(Plain));
          Mark(i, c);
        }
      case UnicodeEscape(digits) =>
        if IsAsciiHex(c) {
          if digits == 3 {
            SetTop(Str(Plain));
            Mark(i, c);
          } else {
            SetTop(Str(UnicodeEscape(digits + 1)));
          }
        }
    }

    /** The kept bytes of the input, then the closing tokens, innermost first. */
    method Finish(input: string) returns (out: string)
      requires exists k: nat :: k <= |input| && ByteOffset(input, k) == validLen
      ensures exists k: nat ::
                k <= |input| && ByteOffset(input, k) == validLen &&
                out == input[..k] + Closers(AsStack(open))
    {
      var k := BoundaryAt(input, |input|, validLen);
      out := input[..k];
      var n := |open|;
      assert open[..n] == open;
      while n > 0
        invariant 0 <= n <= |open|
        invariant out + Closers(AsStack(open[..n])) == input[..k] + Closers(AsStack(open))
      {
        assert open[..n][..n - 1] == open[..n - 1];
        n := n - 1;
        out := out + Closing(open[n]);
      }
    }
  }

  /** The vector of frames, outermost first, as a stack. */
  ghost function AsStack(open: seq<Frame>): Stack {
    if open == [] then Empty else Push(open[|open| - 1], AsStack(open[..|open| - 1]))
  }

  /** A state whose mark counts characters, with the mark in bytes instead. */
  ghost function InBytes(t: string, st: State): State
    requires st.mark <= |t|
  {
    State(st.open, ByteOffset(t, st.mark))
  }

  /** Whether a step sets the mark does not depend on the mark or on `end`. */
  predicate Marks(open: Stack, c: char) { Step(State(open, 0), 1, c).mark == 1 }

  /** A step sets the mark to `end` or leaves it, whatever `end` counts. */
  lemma {:induction false} StepMarks(st: State, end: nat, c: char)
    ensures Step(st, end, c)
         == State(Step(State(st.open, 0), 1, c).open, if Marks(st.open, c) then end else st.mark)
  {
    match st.open
    case Empty =>
    case Push(Object(_), _) =>
    case Push(Array(_), _) =>
    case Push(Str(_), _) =>
    case Push(Number, below) =>
    case Push(Literal(_), below) =>
  }

  lemma {:induction false} StepCharMarks(st: State, end: nat, c: char)
    ensures StepChar(st, end, c)
         == State(StepChar(State(st.open, 0), 1, c).open,
                  if StepChar(State(st.open, 0), 1, c).mark == 1 then end else st.mark)
  {
    StepMarks(st, end, c);
    StepMarks(Step(st, end, c), end, c);
    StepMarks(Step(State(st.open, 0), 1, c), 1, c);
  }

  lemma {:induction false} StepInBytes(t: string, st: State, at: nat)
    requires st.mark <= at < |t|
    ensures StepChar(st, at + 1, t[at]).mark <= at + 1
    ensures StepChar(InBytes(t, st), ByteOffset(t, at + 1), t[at])
         == InBytes(t, StepChar(st, at + 1, t[at]))
  {
    StepCharMarks(st, at + 1, t[at]);
    StepCharMarks(InBytes(t, st), ByteOffset(t, at + 1), t[at]);
  }

  /** The scan over byte offsets is the scan over characters. */
  method FixJson(input: string) returns (out: string)
    ensures out == Fixed(input)
  {
    hide StepChar, Closers, OpenedBy;
    var repair := new Repair();
    var at, i := 0, 0;
    while at < |input| && OpenedBy(input[at]).None?
      invariant 0 <= at <= |input| && i == ByteOffset(input, at)
      invariant FirstOpener(input, 0) == FirstOpener(input, at)
    {
      i := i + Utf8Len(input[at]);
      at := at + 1;
    }
    ghost var first := at;
    ghost var st := State(Empty, 0);
    if at < |input| {
      repair.PushValue(i, input[at], OpenedBy(input[at]).value);
      i := i + Utf8Len(input[at]);
      at := at + 1;
      st := OpenValue(st, at, input[at - 1], OpenedBy(input[at - 1]).value);
    }
    ghost var start, at0 := st, at;
    var over := false;
    while at < |input| && !over
      invariant at0 <= at <= |input| && i == ByteOffset(input, at)
      invariant st == Run(start, input, at0, at) && st.mark <= at
      invariant repair.View() == InBytes(input, st)
      invariant over ==> st.open.Empty?
    {
      var c := input[at];
      over := repair.FeedChar(i, c);
      StepInBytes(input, st, at);
      i := i + Utf8Len(c);
      at := at + 1;
      st := StepChar(st, at, c);
    }
    if over { RunOnEmpty(start, input, at0, at, |input|); }
    out := repair.Finish(input);
    ghost var k: nat :| k <= |input| && ByteOffset(input, k) == repair.validLen &&
                        out == input[..k] + Closers(AsStack(repair.open));
    SameOffset(input, k, st.mark);
  }

  lemma {:induction false} SameOffset(t: string, k: nat, l: nat)
    requires k <= |t| && l <= |t| && ByteOffset(t, k) == ByteOffset(t, l)
    ensures k == l
  {
    if k < l { ByteOffsetGrows(t, k, l); }
    if l < k { ByteOffsetGrows(t, l, k); }
  }

  /** Once the top-level value has closed, the rest of the input changes nothing. */
  lemma {:induction false} RunOnEmpty(st: State, t: string, i: nat, j: nat, k: nat)
    requires i <= j <= k <= |t|
    requires Run(st, t, i, j).open.Empty?
    ensures Run(st, t, i, k) == Run(st, t, i, j)
    decreases k
  {
    if j < k { RunOnEmpty(st, t, i, j, k - 1); }
  }
}
