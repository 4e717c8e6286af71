/**
 `fix_json` against the JSON grammar: which truncations of a JSON text it
 repairs into JSON, that it keeps complete texts, and that repairing twice
 changes nothing.
 */
module JsonRepair {
  import opened Wrappers
  import opened JsonGrammar
  import opened Scanner = JsonScanner

  // ----- The domain of the theorems

  /** Where the scanner is in what it takes for the members of an object, while
      it has kept nothing since the key began; `Lost` once it keeps something. */
  datatype KeyState = InKey | KeyEnded | BeforeColonValue | InMinus | PastValue | NextMember | Lost

  /** Keys are scanned without escapes: a quote in a key, which is escaped, ends
      it for the scanner, and a colon after it starts a value. */
  function KeyStep(k: KeyState, c: char): KeyState {
    match k
    case InKey => if c == '"' then KeyEnded else InKey
    case KeyEnded => if c == ':' then BeforeColonValue else KeyEnded
    case BeforeColonValue => if c == '-' then InMinus else if OpenedBy(c).Some? then Lost else BeforeColonValue
    case InMinus =>
      if '0' <= c <= '9' || c == '}' then Lost
      else if c == 'e' || c == 'E' || c == '-' || c == '.' then InMinus
      else if c == ',' then NextMember
      else PastValue
    case PastValue => if c == ',' then NextMember else if c == '}' then Lost else PastValue
    case NextMember => if c == '"' then InKey else NextMember
    case Lost => Lost
  }

  function KeyScan(key: string, n: nat): KeyState
    requires n <= |key|
  {
    if n == 0 then InKey else KeyStep(KeyScan(key, n - 1), key[n - 1])
  }

  /** At the end of the key the scanner is where it is at the end of any key. */
  predicate KeySafe(key: string) { KeyStep(KeyScan(key, |key|), '"') == KeyEnded }

  predicate KeysSafe(v: Value)
    decreases v
  {
    v.Container? && v.fill.Filled? ==> EntriesSafe(v.fill.entries)
  }

  predicate EntriesSafe(es: Entries)
    decreases es
  {
    (es.entry.head.Member? ==> KeySafe(es.entry.head.key)) &&
    KeysSafe(es.entry.value) &&
    (es.More? ==> EntriesSafe(es.rest))
  }

  predicate StartsMinus(v: Value) { v.Number? && v.minus }

  /** The first `k` characters of the value end in a `-` that opens the first
      element of an array. */
  predicate CutsFirstMinus(v: Value, k: nat)
    decreases v
  {
    v.Container? && v.fill.Filled? && k > 0 && EntriesCutMinus(v.shape, v.fill.entries, true, k - 1)
  }

  predicate EntriesCutMinus(shape: Shape, es: Entries, first: bool, k: nat)
    decreases es
  {
    var h, n := |SpellHead(es.entry.head)|, |Spell(es.entry.value)|;
    if h < k <= h + n then
      (k == h + 1 && first && shape.Arr? && StartsMinus(es.entry.value)) ||
      CutsFirstMinus(es.entry.value, k - h)
    else
      es.More? && k > |SpellEntry(es.entry)| + 1 &&
      EntriesCutMinus(shape, es.rest, false, k - |SpellEntry(es.entry)| - 1)
  }

  /** When the first `j` characters of a document can be repaired: its value has
      begun, and they do not end in a `-` that is all of the top-level value or
      opens the first element of an array. */
  predicate Repairable(d: Document, j: nat) {
    var n := |d.before|;
    n < j && (j <= n + |Spell(d.value)| ==>
                !(j == n + 1 && StartsMinus(d.value)) && !CutsFirstMinus(d.value, j - n))
  }

  // ----- Text and runs

  ghost predicate At(t: string, i: nat, s: string) { i + |s| <= |t| && t[i..i + |s|] == s }

  lemma {:induction false} AtSplit(t: string, i: nat, a: string, b: string)
    requires At(t, i, a + b)
    ensures At(t, i, a) && At(t, i + |a|, b)
  {
    assert t[i..i + |a + b|][..|a|] == a;
    assert t[i..i + |a + b|][|a|..] == b;
  }

  lemma {:induction false} AtChar(t: string, i: nat, s: string, k: nat)
    requires At(t, i, s) && k < |s|
    ensures t[i + k] == s[k]
  {
    assert t[i..i + |s|][k] == s[k];
  }

  lemma {:induction false} RunCompose(st: State, t: string, i: nat, j: nat, k: nat)
    requires i <= j <= k <= |t|
    ensures Run(st, t, i, k) == Run(Run(st, t, i, j), t, j, k)
    decreases k
  {
    hide StepChar;
    if j < k { RunCompose(st, t, i, j, k - 1); }
  }

  lemma {:induction false} RunOnPrefix(st: State, t: string, n: nat, i: nat, j: nat)
    requires i <= j <= n <= |t|
    ensures Run(st, t[..n], i, j) == Run(st, t, i, j)
    decreases j
  {
    hide StepChar;
    if i < j { RunOnPrefix(st, t, n, i, j - 1); }
  }

  // ----- Scalars

  lemma {:induction false} RunNothing(st: State, t: string, i: nat)
    requires i <= |t|
    ensures Run(st, t, i, i) == st
  {
  }

  lemma {:induction false} LiteralRun(t: string, w: string, i: nat, s: Stack, j: nat)
    requires IsLiteral(w) && At(t, i, w) && i < j <= i + |w|
    ensures NoneWide(w[j - i..])
    ensures Run(State(Push(Scanner.Literal(w[1..]), s), i + 1), t, i + 1, j)
         == State(Push(Scanner.Literal(w[j - i..]), s), j)
    decreases j
  {
    assert i + |w| <= |t|;
    hide StepChar, Run, At, IsLiteral;
    LiteralIsNarrow(w);
    if j == i + 1 {
      RunNothing(State(Push(Scanner.Literal(w[1..]), s), i + 1), t, i + 1);
    } else {
      LiteralRun(t, w, i, s, j - 1);
      AtChar(t, i, w, j - 1 - i);
      RunNext(State(Push(Scanner.Literal(w[1..]), s), i + 1), t, i + 1, j - 1);
      LiteralStep(w[j - 1 - i..], s, j - 1, j);
      assert w[j - 1 - i..][1..] == w[j - i..];
    }
  }

  lemma {:induction false} LiteralStep(rest: string, s: Stack, m: nat, e: nat)
    requires rest != [] && NoneWide(rest)
    ensures StepChar(State(Push(Scanner.Literal(rest), s), m), e, rest[0]) == State(Push(Scanner.Literal(rest[1..]), s), e)
  {
  }

  lemma {:induction false} LiteralIsNarrow(w: string)
    requires IsLiteral(w)
    ensures NoneWide(w)
  {
  }

  lemma {:induction false} LiteralKept(t: string, w: string, i: nat, s: Stack, j: nat)
    requires At(t, i, w) && i < j <= i + |w|
    requires NoneWide(w[j - i..])
    ensures t[i..j] + Closers(Push(Scanner.Literal(w[j - i..]), s)) == w + Closers(s)
  {
    assert t[i..j] == t[i..i + |w|][..j - i];
    assert w == w[..j - i] + w[j - i..];
    hide Closers;
    ClosersOfLiteral(w[j - i..], s);
    PlusAssoc(w[..j - i], w[j - i..], Closers(s));
  }

  lemma {:induction false} ClosersOfLiteral(rest: string, s: Stack)
    requires NoneWide(rest)
    ensures Closers(Push(Scanner.Literal(rest), s)) == rest + Closers(s)
  {
  }

  /** The length of the (possibly escaped) string character at `b`. */
  function CharLen(t: string, b: nat): nat
    requires b < |t|
  {
    if t[b] != '\\' then 1 else if b + 1 < |t| && t[b + 1] == 'u' then 6 else 2
  }

  ghost predicate IsOneChar(t: string, b: nat)
    requires b < |t|
  {
    if t[b] != '\\' then IsUnescaped(t[b])
    else if b + 1 < |t| && t[b + 1] == 'u'
    then b + 6 <= |t| && IsHex(t[b + 2]) && IsHex(t[b + 3]) && IsHex(t[b + 4]) && IsHex(t[b + 5])
    else b + 2 <= |t| && IsSimpleEscape(t[b + 1])
  }

  /** A string body is a string character and a string body. */
  lemma {:induction false} CharsSplit(t: string, b: nat, e: nat)
    requires b < e <= |t|
    ensures IsChars(t[b..e])
       <==> IsOneChar(t, b) && b + CharLen(t, b) <= e && IsChars(t[b + CharLen(t, b)..e])
  {
    var body, n := t[b..e], CharLen(t, b);
    assert forall k :: 0 <= k < |body| ==> t[b + k] == body[k];
    if b + n <= e { assert body[n..] == t[b + n..e]; }
  }

  lemma {:induction false} CharRun(t: string, b: nat, s: Stack, n: nat)
    requires b < |t| && IsOneChar(t, b)
    requires 0 < n <= CharLen(t, b)
    ensures b + n <= |t|
    ensures Run(State(Push(Str(Plain), s), b), t, b, b + n)
         == if n == CharLen(t, b) then State(Push(Str(Plain), s), b + n)
            else State(Push(Str(if n == 1 then Escape else UnicodeEscape(n - 2)), s), b)
  {
    var c := t[b + n - 1];
    if n == 1 {
      assert Run(State(Push(Str(Plain), s), b), t, b, b) == State(Push(Str(Plain), s), b);
    } else {
      CharRun(t, b, s, n - 1);
      assert !IsWide(c);
    }
  }

  /** After a string's opening quote, up to its closing quote at `e`. */
  lemma {:induction false} CharsRun(t: string, b: nat, e: nat, s: Stack, j: nat)
    requires b <= j <= e <= |t| && IsChars(t[b..e])
    ensures var st := Run(State(Push(Str(Plain), s), b), t, b, j);
            && st.open.Push? && st.open.top.Str? && st.open.below == s
            && b <= st.mark <= j && IsChars(t[b..st.mark])
            && (j == e ==> st == State(Push(Str(Plain), s), e))
    decreases e - b
  {
    hide IsChars, StepChar, IsOneChar;
    assert IsChars([]) by { EmptyChars(); }
    var st := State(Push(Str(Plain), s), b);
    assert t[b..b] == [];
    if b < j {
      CharsSplit(t, b, e);
      var n := CharLen(t, b);
      if j < b + n {
        CharRun(t, b, s, j - b);
      } else {
        CharRun(t, b, s, n);
        CharsRun(t, b + n, e, s, j);
        RunCompose(st, t, b, b + n, j);
        CharsSplit(t, b, Run(st, t, b, j).mark);
      }
    }
  }

  lemma EmptyChars()
    ensures IsChars([])
  {
  }

  predicate IsNumberChar(c: char) { IsDigit(c) || c == '-' || c == '+' || c == '.' || c == 'e' || c == 'E' }

  lemma {:induction false} FracChar(f: string, k: nat)
    requires IsFrac(f) && k < |f|
    ensures if k == 0 then f[k] == '.' else IsDigit(f[k])
  {
    if k > 0 { assert f[k] == f[1..][k - 1]; }
  }

  lemma {:induction false} ExpChar(x: string, k: nat)
    requires IsExp(x) && k < |x|
    ensures if k == 0 then x[k] == 'e' || x[k] == 'E' else if k == 1 && HasSign(x) then x[k] == '+' || x[k] == '-' else IsDigit(x[k])
    ensures k == |x| - 1 ==> IsDigit(x[k])
  {
    if HasSign(x) {
      if k > 1 { assert x[k] == x[2..][k - 2]; }
    } else if k > 0 {
      assert x[k] == x[1..][k - 1];
    }
  }

  lemma {:induction false} FracPrefix(f: string, k: nat)
    requires IsFrac(f) && 0 < k <= |f| && IsDigit(f[k - 1])
    ensures IsFrac(f[..k])
  {
    assert f[..k][1..] == f[1..][..k - 1];
  }

  lemma {:induction false} ExpPrefix(x: string, k: nat)
    requires IsExp(x) && 0 < k <= |x| && IsDigit(x[k - 1])
    ensures IsExp(x[..k])
  {
    if HasSign(x) {
      assert k >= 3 && x[..k][2..] == x[2..][..k - 2];
    } else {
      assert k >= 2 && x[..k][1..] == x[1..][..k - 1];
    }
  }

  function WholeAt(v: Value): nat
    requires v.Number?
  {
    if v.minus then 1 else 0
  }

  function FracAt(v: Value): nat
    requires v.Number?
  {
    WholeAt(v) + |v.whole|
  }

  function ExpAt(v: Value): nat
    requires v.Number?
  {
    FracAt(v) + |v.frac|
  }

  /** The character at a place of a number. */
  lemma {:induction false} NumberChar(v: Value, k: nat)
    requires v.Number? && k < |Spell(v)|
    ensures |Spell(v)| == ExpAt(v) + |v.exp|
    ensures Spell(v)[k] ==
            if k < WholeAt(v) then '-' else if k < FracAt(v) then v.whole[k - WholeAt(v)]
            else if k < ExpAt(v) then v.frac[k - FracAt(v)] else v.exp[k - ExpAt(v)]
  {
  }

  lemma {:induction false} DigitOrMark(v: Value, k: nat)
    requires v.Number? && Valid(v) && k < |Spell(v)|
    ensures IsNumberChar(Spell(v)[k])
    ensures !IsDigit(Spell(v)[k]) ==>
              (k == 0 && v.minus && Spell(v)[k] == '-')
              || (k == FracAt(v) && Spell(v)[k] == '.')
              || (k == ExpAt(v) && (Spell(v)[k] == 'e' || Spell(v)[k] == 'E'))
              || (k == ExpAt(v) + 1 && HasSign(v.exp) && (Spell(v)[k] == '+' || Spell(v)[k] == '-'))
    ensures k == WholeAt(v) || k == |Spell(v)| - 1 ==> IsDigit(Spell(v)[k])
  {
    NumberChar(v, k);
    hide Spell, IsFrac, IsExp;
    if FracAt(v) <= k < ExpAt(v) {
      FracChar(v.frac, k - FracAt(v));
      LastFracDigit(v.frac);
    }
    if ExpAt(v) <= k { ExpChar(v.exp, k - ExpAt(v)); }
  }

  lemma {:induction false} LastFracDigit(f: string)
    requires IsFrac(f) && f != []
    ensures |f| >= 2 && IsDigit(f[|f| - 1])
  {
    FracChar(f, |f| - 1);
  }

  /** What the scanner meets inside a number. */
  lemma {:induction false} NumberChars(v: Value, k: nat)
    requires v.Number? && Valid(v) && k < |Spell(v)|
    ensures IsNumberChar(Spell(v)[k])
    ensures forall p :: 0 <= p < k && Spell(v)[p] == '+' ==> IsDigit(Spell(v)[k])
    ensures k == (if v.minus then 1 else 0) || k == |Spell(v)| - 1 ==> IsDigit(Spell(v)[k])
    ensures k == 0 && v.minus ==> Spell(v)[k] == '-'
  {
    DigitOrMark(v, k);
    NumberChar(v, k);
    hide Spell, Valid;
    forall p | 0 <= p < k && Spell(v)[p] == '+' ensures IsDigit(Spell(v)[k]) { DigitOrMark(v, p); }
  }

  /** A prefix of a number that ends in a digit is a number. */
  lemma {:induction false} NumberPrefix(v: Value, n: nat) returns (w: Value)
    requires v.Number? && Valid(v) && 0 < n <= |Spell(v)| && IsDigit(Spell(v)[n - 1])
    ensures w.Number? && Valid(w) && Spell(w) == Spell(v)[..n]
  {
    hide Spell, IsFrac, IsExp;
    var a, b, c := WholeAt(v), FracAt(v), ExpAt(v);
    NumberChar(v, n - 1);
    if n <= b {
      w := Value.Number(v.minus, v.whole[..n - a], "", "");
      EmptyTail();
    } else if n <= c {
      FracPrefix(v.frac, n - b);
      w := Value.Number(v.minus, v.whole, v.frac[..n - b], "");
      EmptyTail();
    } else {
      ExpPrefix(v.exp, n - c);
      w := Value.Number(v.minus, v.whole, v.frac, v.exp[..n - c]);
    }
    PrefixSpelling(v, w, n);
  }

  lemma {:induction false} EmptyTail()
    ensures IsFrac("") && IsExp("")
  {
  }

  lemma {:induction false} PrefixSpelling(v: Value, w: Value, n: nat)
    requires v.Number? && w.Number? && 0 < n <= |Spell(v)| && w.minus == v.minus
    requires var k: nat := n;
             if k <= FracAt(v) then WholeAt(v) <= k && w.whole == v.whole[..k - WholeAt(v)] && w.frac == "" && w.exp == ""
             else if k <= ExpAt(v) then w.whole == v.whole && w.frac == v.frac[..k - FracAt(v)] && w.exp == ""
             else k <= ExpAt(v) + |v.exp| && w.whole == v.whole && w.frac == v.frac && w.exp == v.exp[..k - ExpAt(v)]
    ensures Spell(w) == Spell(v)[..n]
  {
    NumberChar(v, 0);
    assert |Spell(w)| == n;
    forall k | 0 <= k < n ensures Spell(w)[k] == Spell(v)[k] {
      NumberChar(v, k);
      NumberChar(w, k);
    }
  }

  /** A number whose exponent is written with a `+`. */
  predicate PlusNumber(v: Value) { v.Number? && '+' in Spell(v) }

  predicate AwaitsDelimiter(s: Stack) {
    s.Push? ==> s.top == Array(ArrAfterValue) || s.top == Object(ObjAfterValue)
  }

  predicate InArray(s: Stack) { s.Push? && s.top.Array? }

  lemma {:induction false} NumberStep(s: Stack, m: nat, e: nat, c: char)
    requires AwaitsDelimiter(s) && IsNumberChar(c)
    ensures StepChar(State(Push(Scanner.Number, s), m), e, c)
         == if c == '+' then State(s, m) else State(Push(Scanner.Number, s), if IsDigit(c) then e else m)
    ensures IsDigit(c) ==> StepChar(State(s, m), e, c) == State(s, if InArray(s) then e else m)
  {
  }

  lemma {:induction false} SliceSnoc(t: string, i: nat, j: nat)
    requires i <= j < |t|
    ensures t[i..j + 1] == t[i..j] + [t[j]]
  {
  }

  /** Where a `+` ends the number for the scanner, an array marks the digits
      after it and an object or the end of the text does not. */
  lemma {:induction false} NumberRun(t: string, v: Value, i: nat, s: Stack, m: nat, j: nat)
    requires v.Number? && Valid(v) && At(t, i, Spell(v)) && i < j <= i + |Spell(v)|
    requires AwaitsDelimiter(s)
    ensures var st := Run(State(Push(Scanner.Number, s), if v.minus then m else i + 1), t, i + 1, j);
            && st.open == (if '+' in t[i..j] then s else Push(Scanner.Number, s))
            && (v.minus && j == i + 1 ==> st.mark == m)
            && (!(v.minus && j == i + 1) ==> i < st.mark <= j && IsDigit(t[st.mark - 1]))
            && (IsDigit(t[j - 1]) && ('+' in t[i..j] ==> InArray(s)) ==> st.mark == j)
            && (!(v.minus && j == i + 1) && !InArray(s) ==> '+' !in t[i..st.mark])
    decreases j
  {
    hide StepChar, Spell, Valid;
    var c := t[j - 1];
    NumberChars(v, j - 1 - i);
    AtChar(t, i, Spell(v), j - 1 - i);
    if j == i + 1 {
      assert t[i..j] == [c];
    } else {
      NumberRun(t, v, i, s, m, j - 1);
      var st := Run(State(Push(Scanner.Number, s), if v.minus then m else i + 1), t, i + 1, j - 1);
      NumberStep(s, st.mark, j, c);
      SliceSnoc(t, i, j - 1);
      if '+' in t[i..j - 1] { PlusBefore(t, v, i, j - 1); }
    }
  }

  /** After a `+` come digits only. */
  lemma {:induction false} PlusBefore(t: string, v: Value, i: nat, j: nat)
    requires v.Number? && Valid(v) && At(t, i, Spell(v)) && i <= j < i + |Spell(v)| && '+' in t[i..j]
    ensures IsDigit(t[j])
  {
    hide Spell, Valid;
    var p :| 0 <= p < j - i && t[i..j][p] == '+';
    NumberChars(v, j - i);
    AtChar(t, i, Spell(v), p);
    AtChar(t, i, Spell(v), j - i);
  }

  // ----- Around the values of a container

  function EntryFrame(shape: Shape, first: bool): Frame {
    match shape
    case Arr => Array(if first then ArrStart else ArrAfterComma)
    case Obj => Object(if first then ObjStart else ObjAfterComma)
  }

  function ReadyFrame(shape: Shape, first: bool): Frame {
    if shape.Arr? then EntryFrame(shape, first) else Object(BeforeValue)
  }

  function AfterFrame(shape: Shape): Frame { if shape.Arr? then Array(ArrAfterValue) else Object(ObjAfterValue) }

  function FrameOf(v: Value): Frame
    requires Valid(v)
  {
    match v
    case Literal(w) => Scanner.Literal(w[1..])
    case Number(_, _, _, _) => Scanner.Number
    case Text(_) => Str(Plain)
    case Container(shape, _) => EntryFrame(shape, true)
  }

  lemma {:induction false} ItemRun(t: string, ws: string, i: nat, s: Stack, first: bool, m: nat, j: nat)
    requires IsBlank(ws) && At(t, i, ws) && i <= j <= i + |ws|
    ensures Run(State(Push(EntryFrame(Arr, first), s), m), t, i, j)
         == State(Push(EntryFrame(Arr, first), s), if first && i < j then j else m)
    decreases j
  {
    if i < j {
      ItemRun(t, ws, i, s, first, m, j - 1);
      AtChar(t, i, ws, j - 1 - i);
    }
  }

  function StackOf(k: KeyState, s: Stack): Stack {
    match k
    case InKey => Push(Object(Key), s)
    case KeyEnded => Push(Object(AfterKey), s)
    case BeforeColonValue => Push(Object(BeforeValue), s)
    case InMinus => Push(Scanner.Number, Push(Object(ObjAfterValue), s))
    case PastValue => Push(Object(ObjAfterValue), s)
    case NextMember => Push(Object(ObjAfterComma), s)
    case Lost => s
  }

  lemma {:induction false} KeyStepIs(k: KeyState, s: Stack, m: nat, e: nat, c: char)
    requires KeyStep(k, c) != Lost
    ensures StepChar(State(StackOf(k, s), m), e, c) == State(StackOf(KeyStep(k, c), s), m)
  {
  }

  lemma {:induction false} LostStays(key: string, n: nat, m: nat)
    requires n <= m <= |key| && KeyScan(key, m) != Lost
    ensures KeyScan(key, n) != Lost
    decreases m
  {
    if n < m { LostStays(key, n, m - 1); }
  }

  /** Inside a key nothing is kept. */
  lemma {:induction false} KeyRun(t: string, i: nat, key: string, s: Stack, m: nat, j: nat)
    requires At(t, i, key) && i <= j <= i + |key| && KeyScan(key, j - i) != Lost
    ensures Run(State(Push(Object(Key), s), m), t, i, j) == State(StackOf(KeyScan(key, j - i), s), m)
    decreases j
  {
    hide StepChar, StackOf, KeyStep;
    if j == i {
      KeyStarts(s);
    } else {
      LostStays(key, j - 1 - i, j - i);
      KeyRun(t, i, key, s, m, j - 1);
      AtChar(t, i, key, j - 1 - i);
      KeyStepIs(KeyScan(key, j - 1 - i), s, m, j, t[j - 1]);
    }
  }

  lemma {:induction false} KeyStarts(s: Stack)
    ensures StackOf(InKey, s) == Push(Object(Key), s) && StackOf(KeyEnded, s) == Push(Object(AfterKey), s)
  {
  }

  lemma {:induction false} KeyCloses(k: KeyState, s: Stack)
    requires k != Lost
    ensures Closers(StackOf(k, s)) == "}" + Closers(s)
  {
    assert Closers(Push(Object(ObjAfterValue), s)) == "}" + Closers(s);
    assert "" + ("}" + Closers(s)) == "}" + Closers(s);
  }

  /** Whitespace changes nothing where the scanner waits for a token. */
  lemma {:induction false} IdleRun(t: string, f: Frame, i: nat, s: Stack, m: nat, j: nat)
    requires f.Object? && !f.objectPos.Key?
    requires i <= j <= |t| && forall k :: i <= k < j ==> IsSpace(t[k])
    ensures Run(State(Push(f, s), m), t, i, j) == State(Push(f, s), m)
    decreases j
  {
    if i < j { IdleRun(t, f, i, s, m, j - 1); }
  }

  lemma {:induction false} KeySteps(s: Stack, first: bool, m: nat)
    ensures forall e: nat ::
              StepChar(State(Push(EntryFrame(Obj, first), s), m), e, '"') == State(Push(Object(Key), s), m)
    ensures forall e: nat ::
              StepChar(State(Push(Object(AfterKey), s), m), e, ':') == State(Push(Object(BeforeValue), s), m)
  {
  }

  lemma {:induction false} MemberRun(t: string, h: Head, i: nat, s: Stack, first: bool, m: nat, j: nat)
    requires h.Member? && ValidHead(Obj, h) && KeySafe(h.key)
    requires At(t, i, SpellHead(h)) && i <= j <= i + |SpellHead(h)|
    ensures var st := Run(State(Push(EntryFrame(Obj, first), s), m), t, i, j);
            && st.mark == m && Closers(st.open) == "}" + Closers(s)
            && (j == i + |SpellHead(h)| ==> st.open == Push(Object(BeforeValue), s))
  {
    hide StepChar, Run, SpellHead, ValidHead, KeyScan, KeyStep, KeySafe, At;
    var st0 := State(Push(EntryFrame(Obj, first), s), m);
    var quote := i + |h.ws|;
    var endKey := quote + 1 + |h.key|;
    var colon := endKey + 1 + |h.afterKey|;
    MemberText(t, h, i);
    IdleRun(t, EntryFrame(Obj, first), i, s, m, if j < quote then j else quote);
    if j <= quote {
      ObjectCloses(EntryFrame(Obj, first), s);
    } else {
      KeySteps(s, first, m);
      RunNext(st0, t, i, quote);
      var k := if j < endKey then j else endKey;
      SafeKeyRun(t, quote + 1, h.key, s, m, k);
      RunCompose(st0, t, i, quote + 1, k);
      if endKey < j { AfterKeyRun(t, h, i, s, st0, j); }
    }
  }

  /** The part of a member's head after its key. */
  lemma {:induction false} AfterKeyRun(t: string, h: Head, i: nat, s: Stack, st0: State, j: nat)
    requires h.Member? && ValidHead(Obj, h) && KeySafe(h.key) && At(t, i, SpellHead(h))
    requires var endKey := i + |h.ws| + 1 + |h.key|;
             && endKey < j <= i + |SpellHead(h)| && j <= |t|
             && Run(st0, t, i, endKey) == State(StackOf(KeyScan(h.key, |h.key|), s), st0.mark)
    ensures var st := Run(st0, t, i, j);
            && st.mark == st0.mark && Closers(st.open) == "}" + Closers(s)
            && (j == i + |SpellHead(h)| ==> st.open == Push(Object(BeforeValue), s))
  {
    hide StepChar, Run, SpellHead, ValidHead, KeyScan, KeyStep, At;
    var m := st0.mark;
    var endKey := i + |h.ws| + 1 + |h.key|;
    var colon := endKey + 1 + |h.afterKey|;
    MemberText(t, h, i);
    RunNext(st0, t, i, endKey);
    KeyStepIs(KeyScan(h.key, |h.key|), s, m, endKey + 1, '"');
    KeyStarts(s);
    IdleRun(t, Object(AfterKey), endKey + 1, s, m, if j < colon then j else colon);
    RunCompose(st0, t, i, endKey + 1, if j < colon then j else colon);
    ObjectCloses(Object(AfterKey), s);
    ObjectCloses(Object(BeforeValue), s);
    if colon < j {
      KeySteps(s, true, m);
      RunNext(st0, t, i, colon);
      IdleRun(t, Object(BeforeValue), colon + 1, s, m, j);
      RunCompose(st0, t, i, colon + 1, j);
    }
  }

  lemma {:induction false} ObjectCloses(f: Frame, s: Stack)
    requires f.Object?
    ensures Closers(Push(f, s)) == "}" + Closers(s)
  {
  }

  lemma {:induction false} SafeKeyRun(t: string, i: nat, key: string, s: Stack, m: nat, j: nat)
    requires At(t, i, key) && KeySafe(key) && i <= j <= i + |key|
    ensures var st := Run(State(Push(Object(Key), s), m), t, i, j);
            st == State(StackOf(KeyScan(key, j - i), s), m) && Closers(st.open) == "}" + Closers(s)
  {
    hide Run, StackOf;
    LostStays(key, j - i, |key|);
    KeyRun(t, i, key, s, m, j);
    KeyCloses(KeyScan(key, j - i), s);
  }

  lemma {:induction false} MemberText(t: string, h: Head, i: nat)
    requires h.Member? && ValidHead(Obj, h) && At(t, i, SpellHead(h))
    ensures var quote := i + |h.ws|;
            var endKey := quote + 1 + |h.key|;
            var colon := endKey + 1 + |h.afterKey|;
            && colon + 1 + |h.beforeValue| == i + |SpellHead(h)| <= |t|
            && t[quote] == '"' && t[endKey] == '"' && t[colon] == ':' && At(t, quote + 1, h.key)
            && (forall k :: i <= k < quote ==> IsSpace(t[k]))
            && (forall k :: endKey < k < colon ==> IsSpace(t[k]))
            && (forall k :: colon < k < i + |SpellHead(h)| ==> IsSpace(t[k]))
  {
    var quote := i + |h.ws|;
    var endKey := quote + 1 + |h.key|;
    var colon := endKey + 1 + |h.afterKey|;
    MemberPieces(t, h, i);
    assert IsBlank(h.ws) && IsBlank(h.afterKey) && IsBlank(h.beforeValue);
    hide SpellHead, At, ValidHead, IsBlank, IsSpace;
    BlankAt(t, i, h.ws);
    AtChar(t, quote, "\"", 0);
    AtChar(t, endKey, "\"", 0);
    BlankAt(t, endKey + 1, h.afterKey);
    AtChar(t, colon, ":", 0);
    BlankAt(t, colon + 1, h.beforeValue);
  }

  lemma {:induction false} BlankAt(t: string, i: nat, s: string)
    requires At(t, i, s) && IsBlank(s)
    ensures i + |s| <= |t| && forall k :: i <= k < i + |s| ==> IsSpace(t[k])
  {
    hide IsSpace;
    forall k | i <= k < i + |s| ensures IsSpace(t[k]) { AtChar(t, i, s, k - i); }
  }

  /** The pieces of a member's head, one after the other. */
  lemma {:induction false} MemberPieces(t: string, h: Head, i: nat)
    requires h.Member? && At(t, i, SpellHead(h))
    ensures var quote := i + |h.ws|;
            var endKey := quote + 1 + |h.key|;
            var colon := endKey + 1 + |h.afterKey|;
            && colon + 1 + |h.beforeValue| == i + |SpellHead(h)| <= |t|
            && At(t, i, h.ws) && At(t, quote, "\"") && At(t, quote + 1, h.key) && At(t, endKey, "\"")
            && At(t, endKey + 1, h.afterKey) && At(t, colon, ":") && At(t, colon + 1, h.beforeValue)
  {
    var a := h.ws + "\"";
    var b := a + h.key;
    var c := b + "\"";
    var d := c + h.afterKey;
    var e := d + ":";
    assert SpellHead(h) == e + h.beforeValue;
    hide At, SpellHead;
    AtSplit(t, i, e, h.beforeValue);
    AtSplit(t, i, d, ":");
    AtSplit(t, i, c, h.afterKey);
    AtSplit(t, i, b, "\"");
    AtSplit(t, i, a, h.key);
    AtSplit(t, i, h.ws, "\"");
  }

  /** The scan of what precedes an entry's value. */
  lemma {:induction false} HeadRun(t: string, shape: Shape, h: Head, i: nat, s: Stack, first: bool, m: nat, j: nat)
    requires ValidHead(shape, h) && (h.Member? ==> KeySafe(h.key))
    requires At(t, i, SpellHead(h)) && i <= j <= i + |SpellHead(h)|
    ensures var st := Run(State(Push(EntryFrame(shape, first), s), m), t, i, j);
            && Closers(st.open) == [CloseChar(shape)] + Closers(s)
            && st.mark == (if shape.Arr? && first && i < j then j else m)
            && (shape.Arr? ==> IsBlank(t[i..j]))
            && (j == i + |SpellHead(h)| ==> st.open == Push(ReadyFrame(shape, first), s))
  {
    if shape.Arr? {
      ItemRun(t, h.ws, i, s, first, m, j);
      assert t[i..j] == t[i..i + |h.ws|][..j - i];
    } else {
      MemberRun(t, h, i, s, first, m, j);
    }
  }

  lemma {:induction false} FirstChar(t: string, v: Value, i: nat)
    requires Valid(v) && At(t, i, Spell(v))
    ensures OpenedBy(t[i]) == Some(FrameOf(v)) && !IsWide(t[i])
    ensures t[i] == '-' <==> StartsMinus(v)
    ensures t[i] != ']'
  {
    AtChar(t, i, Spell(v), 0);
    if v.Number? { NumberChars(v, 0); }
  }

  lemma {:induction false} EnterValue(t: string, shape: Shape, v: Value, i: nat, s: Stack, first: bool, m: nat)
    requires Valid(v) && At(t, i, Spell(v))
    ensures StepChar(State(Push(ReadyFrame(shape, first), s), m), i + 1, t[i])
         == State(Push(FrameOf(v), Push(AfterFrame(shape), s)),
                  if StartsMinus(v) && !(shape.Arr? && first) then m else i + 1)
  {
    hide Valid, Spell;
    FirstChar(t, v, i);
  }

  /** The value is complete: nothing of it is open but a number or literal,
      which the next delimiter ends. */
  predicate Complete(open: Stack, s: Stack) {
    open == s || open == Push(Scanner.Number, s) || open == Push(Scanner.Literal(""), s)
  }

  lemma {:induction false} TrailRun(t: string, shape: Shape, i: nat, s: Stack, st: State, j: nat)
    requires i <= j <= |t| && forall k :: i <= k < j ==> IsSpace(t[k])
    requires Complete(st.open, Push(AfterFrame(shape), s)) && st.mark <= i
    ensures var st' := Run(st, t, i, j);
            && Complete(st'.open, Push(AfterFrame(shape), s))
            && (i < j ==> st'.open == Push(AfterFrame(shape), s))
            && (st'.mark == st.mark || (shape.Arr? && i < st'.mark <= j))
    decreases j
  {
    if i < j { TrailRun(t, shape, i, s, st, j - 1); }
  }

  lemma {:induction false} CompleteCloses(open: Stack, s: Stack)
    requires Complete(open, s)
    ensures Closers(open) == Closers(s)
  {
  }

  lemma {:induction false} Delimit(shape: Shape, s: Stack, st: State, e: nat)
    requires Complete(st.open, Push(AfterFrame(shape), s))
    ensures StepChar(st, e, ',') == State(Push(EntryFrame(shape, false), s), st.mark)
    ensures StepChar(st, e, CloseChar(shape)) == State(s, e)
  {
  }

  // ----- Values

  /** What is kept of the text from `i` on, once closed, is `kept`. */
  ghost predicate Keeps(t: string, i: nat, st: State, kept: string, s: Stack) {
    i < st.mark <= |t| && t[i..st.mark] + Closers(st.open) == kept + Closers(s)
  }

  /** The scan of the value at `i`, up to `j`, keeps a value. */
  ghost predicate ValueKept(t: string, i: nat, st: State, j: nat, w: Value, s: Stack) {
    && Keeps(t, i, st, Spell(w), s) && st.mark <= j
    && Valid(w) && KeysSafe(w)
    && (s.Empty? && w.Number? ==> '+' !in Spell(w))
  }

  function Entered(v: Value, i: nat, s: Stack, m: nat): State
    requires Valid(v)
  {
    State(Push(FrameOf(v), s), if StartsMinus(v) then m else i + 1)
  }

  lemma {:induction false} ValueScan(t: string, v: Value, i: nat, s: Stack, m: nat, j: nat) returns (w: Value)
    requires Valid(v) && KeysSafe(v) && At(t, i, Spell(v)) && i < j <= i + |Spell(v)|
    requires AwaitsDelimiter(s)
    requires !(StartsMinus(v) && j == i + 1) && !CutsFirstMinus(v, j - i)
    ensures ValueKept(t, i, Run(Entered(v, i, s, m), t, i + 1, j), j, w, s)
    ensures var st := Run(Entered(v, i, s, m), t, i + 1, j);
            j == i + |Spell(v)| ==>
              Complete(st.open, s) && (InArray(s) || !PlusNumber(v) ==> st.mark == j)
    decreases v
  {
    hide Run, CutsFirstMinus;
    match v
    case Literal(word) => w := LiteralScan(t, v, i, s, j);
    case Number(_, _, _, _) => w := NumberScan(t, v, i, s, m, j);
    case Text(_) => w := TextScan(t, v, i, s, j);
    case Container(_, _) => w := ContainerScan(t, v, i, s, j);
  }

  lemma {:induction false} LiteralScan(t: string, v: Value, i: nat, s: Stack, j: nat) returns (w: Value)
    requires v.Literal? && Valid(v) && At(t, i, Spell(v)) && i < j <= i + |Spell(v)|
    ensures ValueKept(t, i, Run(State(Push(FrameOf(v), s), i + 1), t, i + 1, j), j, w, s)
    ensures j == i + |Spell(v)| ==>
              Run(State(Push(FrameOf(v), s), i + 1), t, i + 1, j) == State(Push(Scanner.Literal(""), s), j)
  {
    hide Run;
    LiteralRun(t, v.word, i, s, j);
    LiteralKept(t, v.word, i, s, j);
    w := v;
  }

  lemma {:induction false} NumberScan(t: string, v: Value, i: nat, s: Stack, m: nat, j: nat) returns (w: Value)
    requires v.Number? && Valid(v) && At(t, i, Spell(v)) && i < j <= i + |Spell(v)|
    requires AwaitsDelimiter(s) && !(v.minus && j == i + 1)
    ensures ValueKept(t, i, Run(Entered(v, i, s, m), t, i + 1, j), j, w, s)
    ensures var st := Run(Entered(v, i, s, m), t, i + 1, j);
            j == i + |Spell(v)| ==>
              Complete(st.open, s) && (InArray(s) || !PlusNumber(v) ==> st.mark == j)
  {
    hide Run, Spell, Valid, KeysSafe;
    var st := Run(Entered(v, i, s, m), t, i + 1, j);
    NumberRun(t, v, i, s, m, j);
    AtChar(t, i, Spell(v), st.mark - 1 - i);
    w := NumberPrefix(v, st.mark - i);
    assert t[i..st.mark] == t[i..i + |Spell(v)|][..st.mark - i] == Spell(w);
    assert KeysSafe(w) by { ScalarSafe(w); }
    CompleteCloses(st.open, s);
    if j == i + |Spell(v)| {
      assert t[i..j] == Spell(v);
      NumberChars(v, j - 1 - i);
      AtChar(t, i, Spell(v), j - 1 - i);
    }
  }

  lemma {:induction false} ScalarSafe(v: Value)
    requires !v.Container?
    ensures KeysSafe(v)
  {
  }

  lemma {:induction false} RunNext(st: State, t: string, i: nat, j: nat)
    requires i <= j < |t|
    ensures Run(st, t, i, j + 1) == StepChar(Run(st, t, i, j), j + 1, t[j])
  {
    hide StepChar;
  }

  lemma {:induction false} CloseString(s: Stack, m: nat, e: nat)
    ensures StepChar(State(Push(Str(Plain), s), m), e, '"') == State(s, e)
  {
  }

  lemma {:induction false} TextScan(t: string, v: Value, i: nat, s: Stack, j: nat) returns (w: Value)
    requires v.Text? && Valid(v) && At(t, i, Spell(v)) && i < j <= i + |Spell(v)|
    ensures ValueKept(t, i, Run(State(Push(Str(Plain), s), i + 1), t, i + 1, j), j, w, s)
    ensures j == i + |Spell(v)| ==> Run(State(Push(Str(Plain), s), i + 1), t, i + 1, j) == State(s, j)
  {
    hide IsChars, Run, StepChar;
    var e, st0 := i + 1 + |v.body|, State(Push(Str(Plain), s), i + 1);
    AtSplit(t, i, "\"" + v.body, "\"");
    AtSplit(t, i, "\"", v.body);
    if j <= e {
      CharsRun(t, i + 1, e, s, j);
      var st := Run(st0, t, i + 1, j);
      w := Value.Text(t[i + 1..st.mark]);
      assert t[i..st.mark] == "\"" + w.body by { AtChar(t, i, "\"", 0); }
      PlusAssoc("\"" + w.body, "\"", Closers(s));
      assert t[i..st.mark] + Closers(st.open) == Spell(w) + Closers(s);
    } else {
      CharsRun(t, i + 1, e, s, e);
      RunNext(st0, t, i + 1, e);
      AtChar(t, e, "\"", 0);
      CloseString(s, e, j);
      w := v;
    }
  }

  lemma {:induction false} ContainerScan(t: string, v: Value, i: nat, s: Stack, j: nat) returns (w: Value)
    requires v.Container? && Valid(v) && KeysSafe(v) && At(t, i, Spell(v)) && i < j <= i + |Spell(v)|
    requires !CutsFirstMinus(v, j - i)
    ensures ValueKept(t, i, Run(State(Push(EntryFrame(v.shape, true), s), i + 1), t, i + 1, j), j, w, s)
    ensures j == i + |Spell(v)| ==>
              Run(State(Push(EntryFrame(v.shape, true), s), i + 1), t, i + 1, j) == State(s, j)
    decreases v, 0
  {
    hide Run, StepChar, CutsFirstMinus, Valid, KeysSafe, Closers;
    var shape, inner := v.shape, SpellFill(v.fill);
    var st0, e := State(Push(EntryFrame(shape, true), s), i + 1), i + 1 + |inner|;
    ContainerText(t, v, i);
    hide Spell;
    if j <= e {
      var fill := FillScan(t, v, i + 1, s, j);
      w := Container(shape, fill);
      FillCloses(t, shape, fill, i, Run(st0, t, i + 1, j), s);
    } else {
      FillRun(t, v, i + 1, s);
      RunNext(st0, t, i + 1, e);
      w := v;
    }
  }

  lemma {:induction false} ContainerText(t: string, v: Value, i: nat)
    requires v.Container? && At(t, i, Spell(v))
    ensures |Spell(v)| == |SpellFill(v.fill)| + 2
    ensures t[i] == OpenChar(v.shape) && At(t, i + 1, SpellFill(v.fill))
    ensures t[i + 1 + |SpellFill(v.fill)|] == CloseChar(v.shape)
  {
    var shape, inner := v.shape, SpellFill(v.fill);
    AtSplit(t, i, [OpenChar(shape)] + inner, [CloseChar(shape)]);
    AtSplit(t, i, [OpenChar(shape)], inner);
    AtChar(t, i, [OpenChar(shape)], 0);
    AtChar(t, i + 1 + |inner|, [CloseChar(shape)], 0);
  }

  lemma {:induction false} FillCloses(t: string, shape: Shape, fill: Fill, i: nat, st: State, s: Stack)
    requires i < |t| && t[i] == OpenChar(shape) && i + 1 <= st.mark <= |t|
    requires t[i + 1..st.mark] + Closers(st.open) == SpellFill(fill) + [CloseChar(shape)] + Closers(s)
    ensures Keeps(t, i, st, Spell(Container(shape, fill)), s)
  {
    assert t[i..st.mark] == [OpenChar(shape)] + t[i + 1..st.mark];
    assert t[i..st.mark] + Closers(st.open) == [OpenChar(shape)] + (t[i + 1..st.mark] + Closers(st.open));
    assert Spell(Container(shape, fill)) == [OpenChar(shape)] + SpellFill(fill) + [CloseChar(shape)];
  }

  function SpellFill(f: Fill): string { if f.Blank? then f.ws else SpellEntries(f.entries) }

  lemma {:induction false} FillScan(t: string, v: Value, i: nat, s: Stack, j: nat) returns (fill: Fill)
    requires v.Container? && Valid(v) && KeysSafe(v)
    requires At(t, i, SpellFill(v.fill)) && i <= j <= i + |SpellFill(v.fill)| < |t|
    requires !CutsFirstMinus(v, j - i + 1)
    ensures var st := Run(State(Push(EntryFrame(v.shape, true), s), i), t, i, j);
            && i <= st.mark <= j
            && t[i..st.mark] + Closers(st.open) == SpellFill(fill) + [CloseChar(v.shape)] + Closers(s)
    ensures Valid(Container(v.shape, fill)) && KeysSafe(Container(v.shape, fill))
    decreases v.fill
  {
    hide Run, EntriesCutMinus, ValidEntries, SpellEntries;
    var shape := v.shape;
    var st0 := State(Push(EntryFrame(shape, true), s), i);
    if v.fill.Blank? {
      BlankRun(t, shape, v.fill.ws, i, s, j);
      fill := Blank(t[i..Run(st0, t, i, j).mark]);
    } else {
      var o := EntriesScan(t, shape, v.fill.entries, i, s, true, i, j);
      fill := if o.Some? then Filled(o.value) else Blank(t[i..Run(st0, t, i, j).mark]);
    }
  }

  lemma {:induction false} FillRun(t: string, v: Value, i: nat, s: Stack)
    requires v.Container? && Valid(v) && KeysSafe(v)
    requires At(t, i, SpellFill(v.fill)) && i + |SpellFill(v.fill)| < |t|
    ensures var e := i + |SpellFill(v.fill)|;
            var st := Run(State(Push(EntryFrame(v.shape, true), s), i), t, i, e);
            StepChar(st, e + 1, CloseChar(v.shape)) == State(s, e + 1)
    decreases v.fill
  {
    hide Run, EntriesCutMinus, ValidEntries, SpellEntries;
    var shape, e := v.shape, i + |SpellFill(v.fill)|;
    if v.fill.Blank? {
      BlankRun(t, shape, v.fill.ws, i, s, e);
    } else {
      NoCutBeyond(shape, v.fill.entries, true, e - i);
      var o := EntriesScan(t, shape, v.fill.entries, i, s, true, i, e);
      Delimit(shape, s, Run(State(Push(EntryFrame(shape, true), s), i), t, i, e), e + 1);
    }
  }

  lemma {:induction false} PushCloses(shape: Shape, s: Stack)
    ensures Closers(Push(AfterFrame(shape), s)) == [CloseChar(shape)] + Closers(s)
  {
  }

  lemma {:induction false} CutRest(shape: Shape, es: Entries, first: bool, k: nat)
    requires es.More? && k > |SpellEntry(es.entry)| && !EntriesCutMinus(shape, es, first, k)
    ensures !EntriesCutMinus(shape, es.rest, false, k - |SpellEntry(es.entry)| - 1)
  {
  }

  /** Complete entries and values do not end in a `-`. */
  lemma {:induction false} NoCutBeyond(shape: Shape, es: Entries, first: bool, k: nat)
    requires ValidEntries(shape, es) && k >= |SpellEntries(es)|
    ensures !EntriesCutMinus(shape, es, first, k)
    decreases es
  {
    NoCutWhole(es.entry.value);
    if es.entry.value.Number? { NumberChars(es.entry.value, 0); NumberChars(es.entry.value, |Spell(es.entry.value)| - 1); }
    if es.More? {
      var n := |SpellEntry(es.entry)| + 1;
      if k > n { NoCutBeyond(shape, es.rest, false, k - n); }
    }
  }

  lemma {:induction false} NoCutWhole(v: Value)
    requires Valid(v)
    ensures !CutsFirstMinus(v, |Spell(v)|)
    decreases v
  {
    if v.Container? && v.fill.Filled? {
      NoCutBeyond(v.shape, v.fill.entries, true, |Spell(v)| - 1);
    }
  }

  /** Whitespace in an empty container. */
  lemma {:induction false} BlankRun(t: string, shape: Shape, ws: string, i: nat, s: Stack, j: nat)
    requires IsBlank(ws) && At(t, i, ws) && i <= j <= i + |ws| < |t|
    ensures var st := Run(State(Push(EntryFrame(shape, true), s), i), t, i, j);
            && st.open == Push(EntryFrame(shape, true), s) && i <= st.mark <= j && IsBlank(t[i..st.mark])
  {
    assert forall k :: i <= k < j ==> IsSpace(t[k]) by {
      forall k | i <= k < j ensures IsSpace(t[k]) { AtChar(t, i, ws, k - i); }
    }
    if shape.Arr? { ItemRun(t, ws, i, s, true, i, j); } else { IdleRun(t, Object(ObjStart), i, s, i, j); }
  }

  /** The scan kept nothing of these entries but whitespace of an array. */
  ghost predicate NothingKept(t: string, i: nat, st: State, j: nat, shape: Shape, first: bool, m: nat, s: Stack) {
    && i <= j <= |t| && Closers(st.open) == [CloseChar(shape)] + Closers(s)
    && if first then i <= st.mark <= j && IsBlank(t[i..st.mark]) else st.mark == m
  }

  ghost predicate EntryKept(t: string, i: nat, st: State, j: nat, shape: Shape, e: Entry, s: Stack) {
    && Keeps(t, i, st, SpellEntry(e) + [CloseChar(shape)], s) && st.mark <= j
    && ValidEntry(shape, e) && EntriesSafe(Last(e))
  }

  ghost predicate EntriesKept(t: string, i: nat, st: State, j: nat, shape: Shape, es: Entries, s: Stack) {
    && Keeps(t, i, st, SpellEntries(es) + [CloseChar(shape)], s) && st.mark <= j
    && ValidEntries(shape, es) && EntriesSafe(es)
  }

  lemma {:induction false} EntriesScan(t: string, shape: Shape, es: Entries, i: nat, s: Stack, first: bool, m: nat, j: nat)
    returns (o: Option<Entries>)
    requires ValidEntries(shape, es) && EntriesSafe(es)
    requires At(t, i, SpellEntries(es)) && i <= j <= i + |SpellEntries(es)|
    requires m <= i && (first ==> m == i)
    requires !EntriesCutMinus(shape, es, first, j - i)
    ensures var st := Run(State(Push(EntryFrame(shape, first), s), m), t, i, j);
            && (o.None? ==> NothingKept(t, i, st, j, shape, first, m, s))
            && (o.Some? ==> EntriesKept(t, i, st, j, shape, o.value, s))
            && (j == i + |SpellEntries(es)| ==> Complete(st.open, Push(AfterFrame(shape), s)))
    decreases es, 1
  {
    hide Run, StepChar, Closers, ValidEntry, SpellEntry, SpellEntries, EntriesCutMinus, Keeps, Complete, At;
    var st0 := State(Push(EntryFrame(shape, first), s), m);
    var e := i + |SpellEntry(es.entry)|;
    EntriesText(t, es, i);
    LastSpelling(es.entry);
    if j <= e {
      CutEntry(shape, es, first, j - i);
      var p := EntryScan(t, shape, es.entry, i, s, first, m, j);
      if p.None? { return None; }
      LastSpelling(p.value);
      o := Some(Last(p.value));
    } else {
      NoCutBeyond(shape, Last(es.entry), first, e - i);
      var p := EntryScan(t, shape, es.entry, i, s, first, m, e);
      var st1 := Run(st0, t, i, e);
      CommaRun(t, shape, st0, i, e, s);
      RunCompose(st0, t, i, e + 1, j);
      CutRest(shape, es, first, j - i);
      var q := EntriesScan(t, shape, es.rest, e + 1, s, false, st1.mark, j);
      if q.None? {
        LastSpelling(p.value);
        PushCloses(shape, s);
        SameKept(t, i, st1, Run(st0, t, i, j), SpellEntry(p.value) + [CloseChar(shape)], s);
        o := Some(Last(p.value));
      } else {
        RestJoins(t, shape, es.entry, q.value, i, Run(st0, t, i, j), s);
        o := Some(More(es.entry, q.value));
      }
    }
  }

  lemma {:induction false} EntriesText(t: string, es: Entries, i: nat)
    requires At(t, i, SpellEntries(es))
    ensures At(t, i, SpellEntry(es.entry)) && i + |SpellEntry(es.entry)| <= |t|
    ensures es.Last? ==> |SpellEntries(es)| == |SpellEntry(es.entry)|
    ensures es.More? ==> var e := i + |SpellEntry(es.entry)|;
              && e + 1 + |SpellEntries(es.rest)| == i + |SpellEntries(es)| <= |t|
              && At(t, e, ",") && t[e] == ',' && At(t, e + 1, SpellEntries(es.rest))
  {
    hide SpellEntry;
    if es.Last? {
      LastSpelling(es.entry);
    } else {
      var a, e := SpellEntry(es.entry), i + |SpellEntry(es.entry)|;
      MoreSpelling(es.entry, es.rest);
      AtSplit(t, i, a + ",", SpellEntries(es.rest));
      AtSplit(t, i, a, ",");
      AtChar(t, e, ",", 0);
    }
  }

  lemma {:induction false} CommaRun(t: string, shape: Shape, st0: State, i: nat, e: nat, s: Stack)
    requires i <= e < |t| && t[e] == ','
    requires Complete(Run(st0, t, i, e).open, Push(AfterFrame(shape), s))
    ensures Run(st0, t, i, e + 1) == State(Push(EntryFrame(shape, false), s), Run(st0, t, i, e).mark)
    ensures Closers(Run(st0, t, i, e).open) == Closers(Push(AfterFrame(shape), s))
  {
    hide Run, StepChar;
    RunNext(st0, t, i, e);
    Delimit(shape, s, Run(st0, t, i, e), e + 1);
    CompleteCloses(Run(st0, t, i, e).open, Push(AfterFrame(shape), s));
  }

  lemma {:induction false} LastSpelling(e: Entry)
    ensures SpellEntries(Last(e)) == SpellEntry(e)
  {
  }

  lemma {:induction false} CutEntry(shape: Shape, es: Entries, first: bool, k: nat)
    requires k <= |SpellEntry(es.entry)| && !EntriesCutMinus(shape, es, first, k)
    ensures !EntriesCutMinus(shape, Last(es.entry), first, k)
  {
  }

  lemma {:induction false} SameKept(t: string, i: nat, st: State, st': State, kept: string, s: Stack)
    requires Keeps(t, i, st, kept, s) && st'.mark == st.mark && Closers(st'.open) == Closers(st.open)
    ensures Keeps(t, i, st', kept, s)
  {
  }

  lemma {:induction false} RestJoins(t: string, shape: Shape, e: Entry, rest: Entries, i: nat, st: State, s: Stack)
    requires At(t, i, SpellEntry(e)) && At(t, i + |SpellEntry(e)|, ",")
    requires Keeps(t, i + |SpellEntry(e)| + 1, st, SpellEntries(rest) + [CloseChar(shape)], s)
    ensures Keeps(t, i, st, SpellEntries(More(e, rest)) + [CloseChar(shape)], s)
  {
    hide SpellEntry, SpellEntries, Closers;
    MoreSpelling(e, rest);
    var k, kept, a, c := i + |SpellEntry(e)|, t[i + |SpellEntry(e)| + 1..st.mark], SpellEntry(e), Closers(st.open);
    assert t[k] == ',' by { AtChar(t, k, ",", 0); }
    assert t[i..st.mark] == a + "," + kept;
    assert a + "," + kept + c == a + "," + (kept + c);
    assert a + "," + (SpellEntries(rest) + [CloseChar(shape)] + Closers(s))
        == a + "," + SpellEntries(rest) + [CloseChar(shape)] + Closers(s);
  }

  lemma {:induction false} MoreSpelling(e: Entry, rest: Entries)
    ensures SpellEntries(More(e, rest)) == SpellEntry(e) + "," + SpellEntries(rest)
  {
  }

  lemma {:induction false} EntryScan(t: string, shape: Shape, e: Entry, i: nat, s: Stack, first: bool, m: nat, j: nat)
    returns (o: Option<Entry>)
    requires ValidEntry(shape, e) && EntriesSafe(Last(e))
    requires At(t, i, SpellEntry(e)) && i <= j <= i + |SpellEntry(e)|
    requires m <= i && (first ==> m == i)
    requires !EntriesCutMinus(shape, Last(e), first, j - i)
    ensures var st := Run(State(Push(EntryFrame(shape, first), s), m), t, i, j);
            && (o.None? ==> NothingKept(t, i, st, j, shape, first, m, s))
            && (o.Some? ==> EntryKept(t, i, st, j, shape, o.value, s))
            && (j == i + |SpellEntry(e)| ==> o.Some? && Complete(st.open, Push(AfterFrame(shape), s)))
    decreases e, 1
  {
    hide Run, StepChar, Valid, Spell, CutsFirstMinus, Closers, EntriesSafe;
    var st0 := State(Push(EntryFrame(shape, first), s), m);
    var h := i + |SpellHead(e.head)|;
    var u := h + |Spell(e.value)|;
    EntryText(t, e, i);
    EntrySafe(e);
    if j <= h {
      HeadRun(t, shape, e.head, i, s, first, m, j);
      o := None;
    } else if j == h + 1 && StartsMinus(e.value) {
      o := None;
      ValueEntered(t, shape, e, i, s, first, m);
      PushCloses(shape, s);
      NumberCloses(Push(AfterFrame(shape), s));
      MinusSpelling(e.value);
    } else if j <= u {
      var w := EntryValueScan(t, shape, e, i, s, first, m, j);
      o := Some(Entry(e.head, w, ""));
    } else {
      NoCutWhole(e.value);
      if StartsMinus(e.value) { MinusSpelling(e.value); }
      var w := EntryValueScan(t, shape, e, i, s, first, m, u);
      var e' := EntryTrailScan(t, shape, e, i, s, Run(st0, t, i, u), w, j);
      o := Some(e');
      RunCompose(st0, t, i, u, j);
    }
  }

  lemma {:induction false} EntryText(t: string, e: Entry, i: nat)
    requires At(t, i, SpellEntry(e))
    ensures var h := i + |SpellHead(e.head)|;
            var u := h + |Spell(e.value)|;
            && At(t, i, SpellHead(e.head)) && At(t, h, Spell(e.value)) && At(t, u, e.trail)
            && u + |e.trail| == i + |SpellEntry(e)|
  {
    hide Spell, SpellHead;
    AtSplit(t, i, SpellHead(e.head) + Spell(e.value), e.trail);
    AtSplit(t, i, SpellHead(e.head), Spell(e.value));
  }

  lemma {:induction false} EntrySafe(e: Entry)
    ensures EntriesSafe(Last(e)) <==> (e.head.Member? ==> KeySafe(e.head.key)) && KeysSafe(e.value)
  {
  }

  lemma {:induction false} NumberCloses(s: Stack)
    ensures Closers(Push(Scanner.Number, s)) == Closers(s)
  {
  }

  lemma {:induction false} MinusSpelling(v: Value)
    requires Valid(v) && StartsMinus(v)
    ensures |Spell(v)| > 1
  {
  }

  /** The state just after the first character of an entry's value. */
  lemma {:induction false} ValueEntered(t: string, shape: Shape, e: Entry, i: nat, s: Stack, first: bool, m: nat)
    requires ValidEntry(shape, e) && EntriesSafe(Last(e)) && At(t, i, SpellEntry(e))
    ensures var h := i + |SpellHead(e.head)|;
            var m' := if shape.Arr? && first then h + 1 else m;
            && h < |t| && Spell(e.value) != []
            && Run(State(Push(EntryFrame(shape, first), s), m), t, i, h + 1)
            == Entered(e.value, h, Push(AfterFrame(shape), s), m')
  {
    hide Run, StepChar, Valid, Spell, EntriesSafe;
    var h := i + |SpellHead(e.head)|;
    var st0 := State(Push(EntryFrame(shape, first), s), m);
    EntryText(t, e, i);
    EntrySafe(e);
    HeadRun(t, shape, e.head, i, s, first, m, h);
    RunNext(st0, t, i, h);
    EnterValue(t, shape, e.value, h, s, first, Run(st0, t, i, h).mark);
  }

  lemma {:induction false} EntryValueScan(t: string, shape: Shape, e: Entry, i: nat, s: Stack, first: bool, m: nat, j: nat)
    returns (w: Value)
    requires ValidEntry(shape, e) && EntriesSafe(Last(e)) && At(t, i, SpellEntry(e))
    requires var h := i + |SpellHead(e.head)|;
             && h < j <= h + |Spell(e.value)| && !(j == h + 1 && StartsMinus(e.value))
             && !CutsFirstMinus(e.value, j - h)
    ensures var st := Run(State(Push(EntryFrame(shape, first), s), m), t, i, j);
            && EntryKept(t, i, st, j, shape, Entry(e.head, w, ""), s)
            && (j == i + |SpellHead(e.head)| + |Spell(e.value)| ==>
                  Complete(st.open, Push(AfterFrame(shape), s)) && (shape.Arr? ==> st.mark == j))
    decreases e, 0
  {
    hide Run, StepChar, Valid, Spell, CutsFirstMinus, Closers, EntriesSafe;
    var st0 := State(Push(EntryFrame(shape, first), s), m);
    var h := i + |SpellHead(e.head)|;
    EntryText(t, e, i);
    EntrySafe(e);
    ValueEntered(t, shape, e, i, s, first, m);
    w := ValueScan(t, e.value, h, Push(AfterFrame(shape), s), if shape.Arr? && first then h + 1 else m, j);
    RunCompose(st0, t, i, h + 1, j);
    EntrySafe(Entry(e.head, w, ""));
    assert Spell(w) + "" == Spell(w);
    HeadJoins(t, shape, e.head, i, Run(st0, t, i, j), w, "", s);
  }

  /** Whitespace after a complete value: an array may keep some of it. */
  lemma {:induction false} EntryTrailScan(t: string, shape: Shape, e: Entry, i: nat, s: Stack, st: State, w: Value, j: nat)
    returns (e': Entry)
    requires ValidEntry(shape, e) && EntriesSafe(Last(e)) && At(t, i, SpellEntry(e))
    requires var u := i + |SpellHead(e.head)| + |Spell(e.value)|;
             && u < j <= i + |SpellEntry(e)| && EntryKept(t, i, st, u, shape, Entry(e.head, w, ""), s)
             && Complete(st.open, Push(AfterFrame(shape), s)) && (shape.Arr? ==> st.mark == u)
    ensures var u := i + |SpellHead(e.head)| + |Spell(e.value)|;
            && EntryKept(t, i, Run(st, t, u, j), j, shape, e', s)
            && Complete(Run(st, t, u, j).open, Push(AfterFrame(shape), s))
  {
    hide Run, StepChar, Valid, Spell, Closers, EntriesSafe;
    var h := i + |SpellHead(e.head)|;
    var u := h + |Spell(e.value)|;
    EntryText(t, e, i);
    forall q | u <= q < j ensures IsSpace(t[q]) { AtChar(t, u, e.trail, q - u); }
    TrailRun(t, shape, u, s, st, j);
    var st' := Run(st, t, u, j);
    CompleteCloses(st.open, Push(AfterFrame(shape), s));
    CompleteCloses(st'.open, Push(AfterFrame(shape), s));
    if st'.mark == st.mark {
      e' := Entry(e.head, w, "");
      SameKept(t, i, st, st', SpellEntry(e') + [CloseChar(shape)], s);
    } else {
      e' := Entry(e.head, e.value, t[u..st'.mark]);
      assert t[h..st'.mark] == Spell(e.value) + t[u..st'.mark];
      HeadJoins(t, shape, e.head, i, st', e.value, t[u..st'.mark], s);
      EntrySafe(e');
      EntrySafe(e);
    }
  }

  lemma {:induction false} HeadJoins(t: string, shape: Shape, head: Head, i: nat, st: State, w: Value, ws: string, s: Stack)
    requires At(t, i, SpellHead(head))
    requires Keeps(t, i + |SpellHead(head)|, st, Spell(w) + ws, Push(AfterFrame(shape), s))
    ensures Keeps(t, i, st, SpellEntry(Entry(head, w, ws)) + [CloseChar(shape)], s)
  {
    var h := i + |SpellHead(head)|;
    assert Closers(Push(AfterFrame(shape), s)) == [CloseChar(shape)] + Closers(s);
    hide SpellHead, Closers;
    assert t[i..st.mark] == SpellHead(head) + t[h..st.mark];
    PlusAssoc(SpellHead(head), t[h..st.mark], Closers(st.open));
    HeadText(SpellHead(head), Spell(w), ws, [CloseChar(shape)], Closers(s));
  }

  lemma {:induction false} HeadText(head: string, value: string, ws: string, close: string, rest: string)
    ensures head + ((value + ws) + (close + rest)) == ((head + value + ws) + close) + rest
  {
  }

  // ----- Documents

  lemma {:induction false} SkipsBlank(t: string, i: nat, n: nat)
    requires i <= n <= |t| && forall k :: i <= k < n ==> IsSpace(t[k])
    requires n < |t| ==> OpenedBy(t[n]).Some?
    ensures FirstOpener(t, i) == n
    decreases n - i
  {
    if i < n { SkipsBlank(t, i + 1, n); }
  }

  lemma {:induction false} DocumentText(d: Document)
    requires ValidDocument(d)
    ensures var t, n := SpellDocument(d), |d.before|;
            && |t| == n + |Spell(d.value)| + |d.after| && At(t, n, Spell(d.value)) && t[..n] == d.before
            && (forall k :: 0 <= k < n ==> IsSpace(t[k]))
            && (forall k :: n + |Spell(d.value)| <= k < |t| ==> IsSpace(t[k]))
  {
    var t, v, n := SpellDocument(d), Spell(d.value), |d.before|;
    hide Spell;
    assert t[n..n + |v|] == v;
    assert forall k :: 0 <= k < n ==> t[k] == d.before[k];
    assert forall k :: n + |v| <= k < |t| ==> t[k] == d.after[k - n - |v|];
  }

  /** The scan of a truncated document is the scan of its value. */
  lemma {:induction false} DocumentScan(d: Document, j: nat)
    requires ValidDocument(d) && j <= |SpellDocument(d)|
    ensures var t, n := SpellDocument(d), |d.before|;
            Scan(t[..j]) == if j <= n then State(Empty, 0) else Run(Entered(d.value, n, Empty, 0), t, n + 1, j)
  {
    hide Run, Spell, Valid;
    var t, n := SpellDocument(d), |d.before|;
    DocumentText(d);
    if j <= n {
      SkipsBlank(t[..j], 0, j);
    } else {
      FirstChar(t, d.value, n);
      SkipsBlank(t[..j], 0, n);
      RunOnPrefix(Entered(d.value, n, Empty, 0), t, j, n + 1, j);
    }
  }

  /** Whitespace after the top-level value is dropped. */
  lemma {:induction false} AfterRun(t: string, st: State, i: nat, j: nat)
    requires i <= j <= |t| && forall k :: i <= k < j ==> IsSpace(t[k])
    requires Complete(st.open, Empty)
    ensures Complete(Run(st, t, i, j).open, Empty) && Run(st, t, i, j).mark == st.mark
    decreases j
  {
    if i < j { AfterRun(t, st, i, j - 1); }
  }

  lemma {:induction false} CutText(t: string, n: nat, m: nat, j: nat)
    requires n <= m <= j <= |t|
    ensures t[..j][..m] == t[..n] + t[n..m]
  {
  }

  lemma {:induction false} PlusAssoc(a: string, b: string, c: string)
    ensures (a + b) + c == a + (b + c)
  {
  }

  /** The repair of a repairable truncation spells a document. */
  lemma {:induction false} RepairedDocument(d: Document, j: nat) returns (d': Document)
    requires ValidDocument(d) && KeysSafe(d.value) && j <= |SpellDocument(d)| && Repairable(d, j)
    ensures ValidDocument(d') && KeysSafe(d'.value) && SpellDocument(d') == Fixed(SpellDocument(d)[..j])
    ensures d'.before == d.before && d'.after == "" && !PlusNumber(d'.value)
    ensures j >= |d.before| + |Spell(d.value)| && !PlusNumber(d.value) ==> Spell(d'.value) == Spell(d.value)
  {
    hide Run, Spell, Valid, CutsFirstMinus, Scan, KeysSafe;
    var t, n := SpellDocument(d), |d.before|;
    var u := n + |Spell(d.value)|;
    var st0 := Entered(d.value, n, Empty, 0);
    DocumentText(d);
    DocumentScan(d, j);
    var k := if j <= u then j else u;
    NoCutWhole(d.value);
    if StartsMinus(d.value) { MinusSpelling(d.value); }
    var w := ValueScan(t, d.value, n, Empty, 0, k);
    d' := Document(d.before, w, "");
    var st := Run(st0, t, n + 1, k);
    if u < j {
      RunCompose(st0, t, n + 1, u, j);
      AfterRun(t, st, u, j);
      CompleteCloses(st.open, Empty);
      CompleteCloses(Run(st0, t, n + 1, j).open, Empty);
    }
    var end := Scan(t[..j]);
    assert end.mark == st.mark && Closers(end.open) == Closers(st.open);
    CutText(t, n, st.mark, j);
    PlusAssoc(d.before, t[n..st.mark], Closers(st.open));
    assert Fixed(t[..j]) == d.before + (t[n..st.mark] + Closers(st.open));
    if j >= u && !PlusNumber(d.value) {
      CompleteCloses(st.open, Empty);
      assert Closers(Empty) == "" && t[n..u] == Spell(d.value);
      assert t[n..u] + "" == t[n..u] && Spell(w) + "" == Spell(w);
    }
  }
}
