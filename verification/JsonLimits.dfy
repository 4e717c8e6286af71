/**
 The main theorems about `fix_json`, with the truncations it cannot repair
 shown not to be JSON by a lexer that watches for a `-` without a digit.
 */
module JsonLimits {
  import opened JsonGrammar
  import opened Scanner = JsonScanner
  import opened JsonRepair

  // ----- A `-` outside strings is followed by a digit in every JSON text

  /** Where a JSON text stands: outside strings (just after a `-` or not), in
      a string, or past a `-` that no digit follows. */
  datatype Lex = Out(minus: bool) | In | Esc | Dead

  function LexStep(l: Lex, c: char): Lex {
    match l
    case Out(minus) =>
      if IsDigit(c) then Out(false)
      else if minus then Dead
      else if c == '"' then In
      else Out(c == '-')
    case In => if c == '"' then Out(false) else if c == '\\' then Esc else In
    case Esc => In
    case Dead => Dead
  }

  function LexRun(l: Lex, t: string, i: nat, j: nat): Lex
    requires i <= j <= |t|
    decreases j
  {
    if i == j then l else LexStep(LexRun(l, t, i, j - 1), t[j - 1])
  }

  lemma {:induction false} LexCompose(l: Lex, t: string, i: nat, j: nat, k: nat)
    requires i <= j <= k <= |t|
    ensures LexRun(l, t, i, k) == LexRun(LexRun(l, t, i, j), t, j, k)
    decreases k
  {
    if j < k { LexCompose(l, t, i, j, k - 1); }
  }

  lemma {:induction false} LexBlank(t: string, i: nat, ws: string)
    requires IsBlank(ws) && At(t, i, ws)
    ensures LexRun(Out(false), t, i, i + |ws|) == Out(false)
  {
    if ws != [] {
      var n := |ws| - 1;
      assert t[i..i + n] == t[i..i + |ws|][..n] == ws[..n];
      LexBlank(t, i, ws[..n]);
      AtChar(t, i, ws, n);
    }
  }

  lemma {:induction false} LexChars(t: string, b: nat, e: nat)
    requires b <= e <= |t| && IsChars(t[b..e])
    ensures LexRun(In, t, b, e) == In
    decreases e - b
  {
    hide IsChars;
    if b < e {
      CharsSplit(t, b, e);
      var n := CharLen(t, b);
      LexChar(t, b, n);
      LexChars(t, b + n, e);
      LexCompose(In, t, b, b + n, e);
    }
  }

  lemma {:induction false} LexChar(t: string, b: nat, n: nat)
    requires b < |t| && IsOneChar(t, b) && 0 < n <= CharLen(t, b)
    ensures b + n <= |t| && LexRun(In, t, b, b + n) == if n == 1 && t[b] == '\\' then Esc else In
  {
    if n > 1 { LexChar(t, b, n - 1); }
  }

  lemma {:induction false} LexString(t: string, i: nat, body: string)
    requires IsChars(body) && At(t, i, "\"" + body + "\"")
    ensures LexRun(Out(false), t, i, i + |body| + 2) == Out(false)
  {
    hide IsChars;
    var e := i + 1 + |body|;
    AtSplit(t, i, "\"" + body, "\"");
    AtSplit(t, i, "\"", body);
    AtChar(t, i, "\"", 0);
    AtChar(t, e, "\"", 0);
    LexChars(t, i + 1, e);
    LexCompose(Out(false), t, i, i + 1, e);
    assert LexRun(Out(false), t, i, i + 1) == LexStep(LexRun(Out(false), t, i, i), t[i]);
  }

  lemma {:induction false} LexNumber(t: string, v: Value, i: nat, j: nat)
    requires v.Number? && Valid(v) && At(t, i, Spell(v)) && i <= j <= i + |Spell(v)|
    ensures LexRun(Out(false), t, i, j) == Out(i < j && t[j - 1] == '-')
    decreases j
  {
    if i < j {
      LexNumber(t, v, i, j - 1);
      NumberChars(v, j - 1 - i);
      AtChar(t, i, Spell(v), j - 1 - i);
      if i < j - 1 && t[j - 2] == '-' {
        AtChar(t, i, Spell(v), j - 2 - i);
        DigitAfterMinus(v, j - 2 - i);
      }
    }
  }

  lemma {:induction false} DigitAfterMinus(v: Value, k: nat)
    requires v.Number? && Valid(v) && k + 1 < |Spell(v)| && Spell(v)[k] == '-'
    ensures IsDigit(Spell(v)[k + 1])
  {
    DigitOrMark(v, k);
    DigitOrMark(v, k + 1);
    NumberChar(v, k);
    hide Spell;
  }

  lemma {:induction false} LexLiteral(t: string, w: string, i: nat)
    requires IsLiteral(w) && At(t, i, w)
    ensures LexRun(Out(false), t, i, i + |w|) == Out(false)
  {
    assert forall k :: 0 <= k < |w| ==> t[i + k] == w[k] by {
      forall k | 0 <= k < |w| ensures t[i + k] == w[k] { AtChar(t, i, w, k); }
    }
    LexWord(t, i, i + |w|);
  }

  lemma {:induction false} LexWord(t: string, i: nat, j: nat)
    requires i <= j <= |t| && forall k :: i <= k < j ==> t[k] != '"' && t[k] != '-'
    ensures LexRun(Out(false), t, i, j) == Out(false)
    decreases j
  {
    if i < j { LexWord(t, i, j - 1); }
  }

  lemma {:induction false} LexValue(t: string, v: Value, i: nat)
    requires Valid(v) && At(t, i, Spell(v))
    ensures LexRun(Out(false), t, i, i + |Spell(v)|) == Out(false)
    decreases v
  {
    hide LexRun, SpellEntries, ValidEntries, IsChars;
    match v
    case Literal(w) => LexLiteral(t, w, i);
    case Number(_, _, _, _) =>
      LexNumber(t, v, i, i + |Spell(v)|);
      NumberChars(v, |Spell(v)| - 1);
      AtChar(t, i, Spell(v), |Spell(v)| - 1);
    case Text(body) => LexString(t, i, body);
    case Container(shape, fill) =>
      ContainerText(t, v, i);
      var e := i + 1 + |SpellFill(fill)|;
      if fill.Blank? { LexBlank(t, i + 1, fill.ws); } else { LexEntries(t, shape, fill.entries, i + 1); }
      LexPunct(t, i);
      LexPunct(t, e);
      LexCompose(Out(false), t, i, i + 1, e);
      LexCompose(Out(false), t, i, e, e + 1);
  }

  lemma {:induction false} LexPunct(t: string, i: nat)
    requires i < |t| && t[i] != '"' && t[i] != '-'
    ensures LexRun(Out(false), t, i, i + 1) == Out(false)
  {
    assert LexRun(Out(false), t, i, i) == Out(false);
  }

  lemma {:induction false} LexEntries(t: string, shape: Shape, es: Entries, i: nat)
    requires ValidEntries(shape, es) && At(t, i, SpellEntries(es))
    ensures LexRun(Out(false), t, i, i + |SpellEntries(es)|) == Out(false)
    decreases es
  {
    hide SpellEntry, SpellEntries, ValidEntry, LexRun, At;
    EntriesText(t, es, i);
    LexEntry(t, shape, es.entry, i);
    if es.More? {
      var e := i + |SpellEntry(es.entry)|;
      LexPunct(t, e);
      LexEntries(t, shape, es.rest, e + 1);
      LexCompose(Out(false), t, i, e, e + 1);
      LexCompose(Out(false), t, i, e + 1, i + |SpellEntries(es)|);
    }
  }

  lemma {:induction false} LexEntry(t: string, shape: Shape, e: Entry, i: nat)
    requires ValidEntry(shape, e) && At(t, i, SpellEntry(e))
    ensures LexRun(Out(false), t, i, i + |SpellEntry(e)|) == Out(false)
    decreases e
  {
    hide Spell, SpellHead, Valid;
    EntryText(t, e, i);
    var h := i + |SpellHead(e.head)|;
    var u := h + |Spell(e.value)|;
    LexHead(t, shape, e.head, i);
    LexValue(t, e.value, h);
    LexBlank(t, u, e.trail);
    LexCompose(Out(false), t, i, h, u);
    LexCompose(Out(false), t, i, u, i + |SpellEntry(e)|);
  }

  lemma {:induction false} LexHead(t: string, shape: Shape, h: Head, i: nat)
    requires ValidHead(shape, h) && At(t, i, SpellHead(h))
    ensures LexRun(Out(false), t, i, i + |SpellHead(h)|) == Out(false)
  {
    if h.Item? {
      LexBlank(t, i, h.ws);
    } else {
      LexMember(t, i, h.ws, h.key, "\"" + h.key + "\"", h.afterKey, h.beforeValue);
      assert SpellHead(h) == h.ws + ("\"" + h.key + "\"") + h.afterKey + ":" + h.beforeValue;
    }
  }

  lemma {:induction false} LexMember(t: string, i: nat, ws: string, key: string, text: string, after: string, before: string)
    requires IsBlank(ws) && IsChars(key) && IsBlank(after) && IsBlank(before) && text == "\"" + key + "\""
    requires At(t, i, ws + text + after + ":" + before)
    ensures LexRun(Out(false), t, i, i + |ws + text + after + ":" + before|) == Out(false)
  {
    hide IsChars, LexRun, IsBlank;
    var q := i + |ws|;
    var e := q + |text|;
    var c := e + |after|;
    AtSplit(t, i, ws + text + after + ":", before);
    AtSplit(t, i, ws + text + after, ":");
    AtSplit(t, i, ws + text, after);
    AtSplit(t, i, ws, text);
    AtChar(t, c, ":", 0);
    LexBlank(t, i, ws);
    LexString(t, q, key);
    LexBlank(t, e, after);
    LexPunct(t, c);
    LexBlank(t, c + 1, before);
    LexCompose(Out(false), t, i, q, e);
    LexCompose(Out(false), t, i, e, c);
    LexCompose(Out(false), t, i, c, c + 1);
    LexCompose(Out(false), t, i, c + 1, c + 1 + |before|);
  }

  lemma {:induction false} LexJson(s: string)
    requires IsJson(s)
    ensures s != "" && LexRun(Out(false), s, 0, |s|) == Out(false)
  {
    var d :| ValidDocument(d) && SpellDocument(d) == s;
    LexDocument(d);
  }

  lemma {:induction false} LexDocument(d: Document)
    requires ValidDocument(d)
    ensures var s := SpellDocument(d); s != "" && LexRun(Out(false), s, 0, |s|) == Out(false)
  {
    hide *;
    var s, n := SpellDocument(d), |d.before|;
    var u := n + |Spell(d.value)|;
    DocumentParts(d);
    ValidParts(d);
    LexBlank(s, 0, d.before);
    LexValue(s, d.value, n);
    LexBlank(s, u, d.after);
    LexCompose(Out(false), s, 0, n, u);
    LexCompose(Out(false), s, 0, u, |s|);
  }

  lemma {:induction false} ValidParts(d: Document)
    requires ValidDocument(d)
    ensures IsBlank(d.before) && Valid(d.value) && IsBlank(d.after) && Spell(d.value) != ""
  {
  }

  lemma {:induction false} DocumentParts(d: Document)
    ensures var t, n := SpellDocument(d), |d.before|;
            && At(t, 0, d.before) && At(t, n, Spell(d.value)) && At(t, n + |Spell(d.value)|, d.after)
            && |t| == n + |Spell(d.value)| + |d.after|
  {
    hide Spell;
    var t := SpellDocument(d);
    assert At(t, 0, d.before + Spell(d.value) + d.after);
    AtSplit(t, 0, d.before + Spell(d.value), d.after);
    AtSplit(t, 0, d.before, Spell(d.value));
  }

  // ----- The truncations that cannot be repaired

  /** The `-` that opens an array's first element is kept, and `]` follows it. */
  ghost predicate KeepsBareMinus(t: string, i: nat, st: State, j: nat) {
    && i < j <= |t| && st.mark == j && t[j - 1] == '-'
    && st.open.Push? && st.open.top == Scanner.Number
    && st.open.below.Push? && st.open.below.top == Array(ArrAfterValue)
    && LexRun(Out(false), t, i, j - 1) == Out(false)
  }

  lemma {:induction false} CutValue(t: string, v: Value, i: nat, s: Stack, m: nat, j: nat)
    requires Valid(v) && KeysSafe(v) && At(t, i, Spell(v)) && i < j <= i + |Spell(v)|
    requires CutsFirstMinus(v, j - i)
    ensures KeepsBareMinus(t, i, Run(Entered(v, i, s, m), t, i + 1, j), j)
    decreases v
  {
    hide Run, LexRun, EntriesCutMinus, SpellEntries, ValidEntries, EntriesSafe;
    ContainerText(t, v, i);
    NoCutBeyondEnd(v, j - i);
    CutEntries(t, v.shape, v.fill.entries, i + 1, s, true, i + 1, j);
    LexPunct(t, i);
    LexCompose(Out(false), t, i, i + 1, j - 1);
  }

  lemma {:induction false} NoCutBeyondEnd(v: Value, k: nat)
    requires Valid(v) && CutsFirstMinus(v, k)
    ensures k - 1 < |SpellFill(v.fill)|
  {
    if k - 1 >= |SpellEntries(v.fill.entries)| { NoCutBeyond(v.shape, v.fill.entries, true, k - 1); }
  }

  lemma {:induction false} CutEntries(t: string, shape: Shape, es: Entries, i: nat, s: Stack, first: bool, m: nat, j: nat)
    requires ValidEntries(shape, es) && EntriesSafe(es)
    requires At(t, i, SpellEntries(es)) && i <= j <= i + |SpellEntries(es)|
    requires m <= i && (first ==> m == i)
    requires EntriesCutMinus(shape, es, first, j - i)
    ensures KeepsBareMinus(t, i, Run(State(Push(EntryFrame(shape, first), s), m), t, i, j), j)
    decreases es
  {
    hide Run, LexRun, StepChar, Spell, SpellEntries, SpellHead, Valid, ValidHead, CutsFirstMinus, Closers, EntriesSafe;
    hide KeepsBareMinus;
    var h := i + |SpellHead(es.entry.head)|;
    EntriesText(t, es, i);
    SafeSplit(es);
    if h < j <= h + |Spell(es.entry.value)| {
      CutEntry(t, shape, es.entry, i, s, first, m, j);
    } else {
      var e, st0 := i + |SpellEntry(es.entry)|, State(Push(EntryFrame(shape, first), s), m);
      LastSpelling(es.entry);
      NoCutBeyond(shape, Last(es.entry), first, e - i);
      var _ := EntryScan(t, shape, es.entry, i, s, first, m, e);
      CommaRun(t, shape, st0, i, e, s);
      CutEntries(t, shape, es.rest, e + 1, s, false, Run(st0, t, i, e).mark, j);
      LexEntry(t, shape, es.entry, i);
      LexPunct(t, e);
      RunCompose(st0, t, i, e + 1, j);
      BareMinusLater(t, i, e, Run(st0, t, i, j), j);
    }
  }

  lemma {:induction false} CutEntry(t: string, shape: Shape, e: Entry, i: nat, s: Stack, first: bool, m: nat, j: nat)
    requires ValidEntry(shape, e) && EntriesSafe(Last(e)) && At(t, i, SpellEntry(e))
    requires var h := i + |SpellHead(e.head)|;
             && h < j <= h + |Spell(e.value)|
             && ((j == h + 1 && first && shape.Arr? && StartsMinus(e.value)) || CutsFirstMinus(e.value, j - h))
    ensures KeepsBareMinus(t, i, Run(State(Push(EntryFrame(shape, first), s), m), t, i, j), j)
    decreases e
  {
    hide Run, LexRun, StepChar, Spell, SpellHead, Valid, ValidHead, CutsFirstMinus, Closers, EntriesSafe;
    var st0 := State(Push(EntryFrame(shape, first), s), m);
    var h := i + |SpellHead(e.head)|;
    EntryText(t, e, i);
    EntrySafe(e);
    ValueEntered(t, shape, e, i, s, first, m);
    LexHead(t, shape, e.head, i);
    if CutsFirstMinus(e.value, j - h) {
      var m' := if shape.Arr? && first then h + 1 else m;
      CutValue(t, e.value, h, Push(AfterFrame(shape), s), m', j);
      RunCompose(st0, t, i, h + 1, j);
      LexCompose(Out(false), t, i, h, j - 1);
    } else {
      FirstChar(t, e.value, h);
    }
  }

  /** A bare minus after an entry and a comma. */
  lemma {:induction false} BareMinusLater(t: string, i: nat, e: nat, st: State, j: nat)
    requires i <= e && e + 1 <= |t| && KeepsBareMinus(t, e + 1, st, j)
    requires LexRun(Out(false), t, i, e) == Out(false) && LexRun(Out(false), t, e, e + 1) == Out(false)
    ensures KeepsBareMinus(t, i, st, j)
  {
    hide LexRun;
    LexCompose(Out(false), t, i, e, e + 1);
    LexCompose(Out(false), t, i, e + 1, j - 1);
  }

  lemma {:induction false} SafeSplit(es: Entries)
    requires EntriesSafe(es)
    ensures EntriesSafe(Last(es.entry)) && (es.More? ==> EntriesSafe(es.rest))
  {
  }

  lemma {:induction false} StaysDead(t: string, i: nat, j: nat)
    requires i <= j <= |t|
    ensures LexRun(Dead, t, i, j) == Dead
    decreases j
  {
    if i < j { StaysDead(t, i, j - 1); }
  }

  lemma {:induction false} LexOnPrefix(l: Lex, t: string, r: string, i: nat, j: nat)
    requires i <= j <= |t| && j <= |r| && t[..j] == r[..j]
    ensures LexRun(l, t, i, j) == LexRun(l, r, i, j)
    decreases j
  {
    if i < j {
      assert t[j - 1] == t[..j][j - 1] == r[..j][j - 1] == r[j - 1];
      assert t[..j - 1] == t[..j][..j - 1] == r[..j][..j - 1] == r[..j - 1];
      LexOnPrefix(l, t, r, i, j - 1);
    }
  }

  lemma {:induction false} BareMinusIsNotJson(t: string, st: State, j: nat)
    requires KeepsBareMinus(t, 0, st, j)
    ensures !IsJson(t[..j] + Closers(st.open))
  {
    hide IsJson, Closers;
    var s := t[..j] + Closers(st.open);
    ClosesArray(st.open);
    assert s[j] == ']' && s[..j] == t[..j];
    LexOnPrefix(Out(false), t, s, 0, j);
    assert LexRun(Out(false), s, 0, j) == Out(true);
    assert LexRun(Out(false), s, 0, j + 1) == Dead;
    hide LexRun;
    StaysDead(s, j + 1, |s|);
    LexCompose(Out(false), s, 0, j + 1, |s|);
    if IsJson(s) { LexJson(s); }
  }

  lemma {:induction false} ClosesArray(open: Stack)
    requires open.Push? && open.top == Scanner.Number && open.below.Push? && open.below.top == Array(ArrAfterValue)
    ensures Closers(open) != [] && Closers(open)[0] == ']'
  {
    assert Closers(open) == "" + ("]" + Closers(open.below.below));
  }

  lemma {:induction false} NotRepaired(d: Document, j: nat)
    requires ValidDocument(d) && KeysSafe(d.value) && j <= |SpellDocument(d)| && !Repairable(d, j)
    ensures !IsJson(Fixed(SpellDocument(d)[..j]))
  {
    hide Run, Spell, LexRun, CutsFirstMinus, Valid, KeysSafe;
    var t, n := SpellDocument(d), |d.before|;
    DocumentText(d);
    DocumentScan(d, j);
    hide Scan;
    var st0 := Entered(d.value, n, Empty, 0);
    if j <= n || (j == n + 1 && StartsMinus(d.value)) {
      assert Run(st0, t, n + 1, n + 1) == st0 by { RunNothing(st0, t, n + 1); }
      assert Fixed(t[..j]) == "";
      if IsJson("") { LexJson(""); }
    } else {
      CutValue(t, d.value, n, Empty, 0, j);
      LexBlank(t, 0, d.before);
      LexCompose(Out(false), t, 0, n, j - 1);
      BareMinusIsNotJson(t, Scan(t[..j]), j);
      assert t[..j][..j] == t[..j];
    }
  }

  // ----- The theorems

  /** Exactly the repairable truncations of a document are repaired. */
  lemma {:induction false} RepairsExactly(d: Document, j: nat)
    requires ValidDocument(d) && KeysSafe(d.value) && j <= |SpellDocument(d)|
    ensures IsJson(Fixed(SpellDocument(d)[..j])) <==> Repairable(d, j)
  {
    hide Fixed, SpellDocument, KeysSafe;
    if Repairable(d, j) {
      var d' := RepairedDocument(d, j);
    } else {
      NotRepaired(d, j);
    }
  }

  /** A complete document loses its trailing whitespace and nothing else,
      exactly when its value is not a number with a `+` exponent. */
  lemma {:induction false} KeepsComplete(d: Document)
    requires ValidDocument(d) && KeysSafe(d.value)
    ensures Fixed(SpellDocument(d)) == d.before + Spell(d.value) <==> !PlusNumber(d.value)
  {
    hide Fixed, KeysSafe, Spell, CutsFirstMinus, Valid;
    var t := SpellDocument(d);
    DocumentText(d);
    NoCutWhole(d.value);
    if StartsMinus(d.value) { MinusSpelling(d.value); }
    var d' := RepairedDocument(d, |t|);
    assert t[..|t|] == t;
    assert Fixed(t) == d.before + Spell(d'.value) + "";
    if Fixed(t) == d.before + Spell(d.value) {
      assert (d.before + Spell(d'.value))[|d.before|..] == Spell(d'.value);
      assert (d.before + Spell(d.value))[|d.before|..] == Spell(d.value);
      NumberSpelling(d.value, d'.value);
    }
  }

  /** A spelling with a `+` in a number is no other number's without one. */
  lemma {:induction false} NumberSpelling(v: Value, w: Value)
    requires Valid(v) && Valid(w) && Spell(v) == Spell(w) && !PlusNumber(w)
    ensures !PlusNumber(v)
  {
    if PlusNumber(v) {
      NumberChars(v, 0);
      FirstChar(Spell(v), v, 0);
      FirstChar(Spell(w), w, 0);
    }
  }

  /** Repairing a repaired truncation changes nothing. */
  lemma {:induction false} RepairIsIdempotent(d: Document, j: nat)
    requires ValidDocument(d) && KeysSafe(d.value) && j <= |SpellDocument(d)| && Repairable(d, j)
    ensures Fixed(Fixed(SpellDocument(d)[..j])) == Fixed(SpellDocument(d)[..j])
  {
    hide Fixed, KeysSafe, Spell, Repairable;
    var d' := RepairedDocument(d, j);
    KeepsComplete(d');
    assert d'.before + Spell(d'.value) + "" == d'.before + Spell(d'.value);
  }

  /** For any text at all, more input never shortens the kept prefix. */
  lemma {:induction false} KeptPrefixGrows(t: string, j: nat)
    requires j <= |t|
    ensures Scan(t[..j]).mark <= Scan(t).mark
    ensures t[..j][..Scan(t[..j]).mark] <= t[..Scan(t).mark] <= t
  {
    hide Run;
    var p := t[..j];
    var k := FirstOpener(p, 0);
    OpenerOnPrefix(t, j, 0);
    if k < j {
      var st := OpenValue(State(Empty, 0), k + 1, t[k], OpenedBy(t[k]).value);
      RunOnPrefix(st, t, j, k + 1, j);
      RunCompose(st, t, k + 1, j, |t|);
      MarkGrows(Run(st, t, k + 1, j), t, j, |t|);
    }
  }

  lemma {:induction false} OpenerOnPrefix(t: string, j: nat, i: nat)
    requires i <= j <= |t|
    ensures FirstOpener(t[..j], i) < j ==> FirstOpener(t, i) == FirstOpener(t[..j], i)
    decreases j - i
  {
    if i < j { OpenerOnPrefix(t, j, i + 1); }
  }

  lemma {:induction false} MarkGrows(st: State, t: string, i: nat, j: nat)
    requires i <= j <= |t| && st.mark <= i
    ensures st.mark <= Run(st, t, i, j).mark
    decreases j
  {
    hide StepChar;
    if i < j {
      MarkGrows(st, t, i, j - 1);
      StepCharMarks(Run(st, t, i, j - 1), j, t[j - 1]);
    }
  }

  /** The object `{"\":[":1}`: its one key is an escaped quote, a colon and a bracket. */
  function EscapedQuoteKey(): Document {
    Document("", Container(Obj, Filled(Last(
      Entry(Member("", "\\\":[", "", ""), Value.Number(false, "1", "", ""), "")))), "")
  }

  const CUT_IN_KEY: string := ['{', '"', '\\', '"', ':', '[']

  lemma {:induction false} EscapedQuoteText()
    ensures ValidDocument(EscapedQuoteKey()) && !KeysSafe(EscapedQuoteKey().value)
    ensures |SpellDocument(EscapedQuoteKey())| > 6 && SpellDocument(EscapedQuoteKey())[..6] == CUT_IN_KEY
    ensures Repairable(EscapedQuoteKey(), 6)
  {
    var d := EscapedQuoteKey();
    var e := d.value.fill.entries.entry;
    EscapedQuoteValid(e);
    EscapedQuoteDocument(e);
    hide Spell, SpellDocument, Valid, IsChars, SpellEntry, KeysSafe;
    assert IsBlank("");
  }

  lemma {:induction false} EscapedQuoteDocument(e: Entry)
    requires e == EscapedQuoteKey().value.fill.entries.entry
    ensures SpellDocument(EscapedQuoteKey()) == ['{', '"', '\\', '"', ':', '[', '"', ':', '1', '}']
  {
    EscapedQuoteSpelling(e);
    hide SpellEntry, SpellEntries;
    var d := EscapedQuoteKey();
    assert Spell(d.value) == ['{'] + SpellEntries(Last(e)) + ['}'];
    assert SpellDocument(d) == "" + Spell(d.value) + "";
  }

  lemma {:induction false} EscapedQuoteValid(e: Entry)
    requires e == EscapedQuoteKey().value.fill.entries.entry
    ensures Valid(EscapedQuoteKey().value) && !KeysSafe(EscapedQuoteKey().value)
  {
    var key := e.head.key;
    assert key == ['\\', '"', ':', '['];
    KeyChars();
    assert KeyScan(key, 0) == InKey && KeyScan(key, 1) == InKey && KeyScan(key, 2) == KeyEnded;
    assert KeyScan(key, 3) == BeforeColonValue && KeyScan(key, 4) == Lost;
    assert ValidEntry(Obj, e);
    assert ValidEntries(Obj, Last(e));
  }

  lemma {:induction false} KeyChars()
    ensures IsChars(['\\', '"', ':', '['])
  {
    var key := ['\\', '"', ':', '['];
    assert key[2..] == [':', '['] && [':', '['][1..] == ['['] && ['['][1..] == [];
  }

  lemma {:induction false} EscapedQuoteSpelling(e: Entry)
    requires e == EscapedQuoteKey().value.fill.entries.entry
    ensures SpellEntry(e) == ['"', '\\', '"', ':', '[', '"', ':', '1'] && SpellEntries(Last(e)) == SpellEntry(e)
  {
    assert SpellHead(e.head) == ['"', '\\', '"', ':', '[', '"', ':'];
    assert Spell(e.value) == ['1'];
    assert SpellEntry(e) == SpellHead(e.head) + Spell(e.value) + "";
  }

  lemma {:induction false} ScanOfCutInKey()
    ensures Fixed(CUT_IN_KEY) == CUT_IN_KEY + "]}"
  {
    var p := CUT_IN_KEY;
    var s0 := State(Push(Object(ObjStart), Empty), 1);
    RunNothing(s0, p, 1);
    assert Run(s0, p, 1, 2) == State(Push(Object(Key), Empty), 1);
    assert Run(s0, p, 1, 3) == State(Push(Object(Key), Empty), 1);
    assert Run(s0, p, 1, 4) == State(Push(Object(AfterKey), Empty), 1);
    assert Run(s0, p, 1, 5) == State(Push(Object(BeforeValue), Empty), 1);
    assert Run(s0, p, 1, 6) == State(Push(Array(ArrStart), Push(Object(ObjAfterValue), Empty)), 6);
    hide Run;
    assert FirstOpener(p, 0) == 0;
    assert Closers(Scan(p).open) == "]" + ("}" + "");
    assert p[..6] == p;
  }

  const PLUS_EXPONENT: string := ['1', 'e', '+', '2']

  /** The text `1e+2` is repaired into `1`. */
  lemma {:induction false} PlusExponentIsCut()
    ensures IsJson(PLUS_EXPONENT) && Fixed(PLUS_EXPONENT) == ['1']
  {
    PlusText();
    PlusScan();
    hide IsJson;
    assert PLUS_EXPONENT[..1] == ['1'];
    assert ['1'] + "" == ['1'];
  }

  lemma {:induction false} PlusText()
    ensures IsJson(PLUS_EXPONENT)
  {
    var v := Value.Number(false, "1", "", "e+2");
    assert v.exp[2..] == ['2'];
    assert IsWhole(v.whole) && IsFrac(v.frac) && IsExp(v.exp);
    assert Spell(v) == PLUS_EXPONENT;
    var d := Document("", v, "");
    hide Spell, IsExp, IsWhole;
    assert SpellDocument(d) == PLUS_EXPONENT;
    assert ValidDocument(d);
  }

  lemma {:induction false} PlusScan()
    ensures Scan(PLUS_EXPONENT) == State(Empty, 1)
  {
    var p := PLUS_EXPONENT;
    var s0 := State(Push(Scanner.Number, Empty), 1);
    PlusSteps(s0);
    RunNothing(s0, p, 1);
    RunNext(s0, p, 1, 1);
    RunNext(s0, p, 1, 2);
    RunNext(s0, p, 1, 3);
    hide Run, StepChar;
    assert FirstOpener(p, 0) == 0;
  }

  lemma {:induction false} PlusSteps(s0: State)
    requires s0 == State(Push(Scanner.Number, Empty), 1)
    ensures StepChar(s0, 2, 'e') == s0 && StepChar(s0, 3, '+') == State(Empty, 1)
    ensures StepChar(State(Empty, 1), 4, '2') == State(Empty, 1)
  {
  }

  lemma {:induction false} LexOfCutInKey(r: string)
    requires r == CUT_IN_KEY + "]}"
    ensures !IsJson(r)
  {
    assert LexRun(Out(false), r, 0, 1) == Out(false) by { LexPunct(r, 0); }
    assert LexRun(Out(false), r, 0, 2) == In;
    assert LexRun(Out(false), r, 0, 3) == Esc;
    assert LexRun(Out(false), r, 0, 4) == In;
    assert LexRun(Out(false), r, 0, 5) == In;
    assert LexRun(Out(false), r, 0, 6) == In;
    assert LexRun(Out(false), r, 0, 7) == In;
    assert LexRun(Out(false), r, 0, 8) == In;
    hide IsJson;
    if IsJson(r) { LexJson(r); }
  }

  /** Without the condition on keys the repair can fail: cut after its key's
      bracket, this document is closed as though an array had begun there. */
  lemma {:induction false} EscapedQuoteBreaksRepair()
    ensures ValidDocument(EscapedQuoteKey()) && !KeysSafe(EscapedQuoteKey().value)
    ensures |SpellDocument(EscapedQuoteKey())| > 6 && Repairable(EscapedQuoteKey(), 6)
    ensures !IsJson(Fixed(SpellDocument(EscapedQuoteKey())[..6]))
  {
    hide Fixed, EscapedQuoteKey, SpellDocument, Repairable, ValidDocument, KeysSafe;
    EscapedQuoteText();
    ScanOfCutInKey();
    LexOfCutInKey(Fixed(CUT_IN_KEY));
  }
}
