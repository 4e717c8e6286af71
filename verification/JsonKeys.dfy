/**
 Which object keys the repair can read past: for a key that leaves the scanner
 where any key leaves it every repairable truncation is repaired, and for any
 other key there is one that is not.
 */
module JsonKeys {
  import opened Wrappers
  import opened JsonGrammar
  import opened Scanner = JsonScanner
  import opened JsonRepair
  import opened JsonLimits

  /** A key without a colon after a quote, such as one without escapes, is safe. */
  lemma {:induction false} PlainKeyIsSafe(key: string)
    requires forall a, b :: 0 <= a < b < |key| && key[a] == '"' ==> key[b] != ':'
    ensures KeySafe(key)
  {
    PlainScan(key, |key|);
  }

  lemma {:induction false} PlainScan(key: string, n: nat)
    requires n <= |key| && forall a, b :: 0 <= a < b < |key| && key[a] == '"' ==> key[b] != ':'
    ensures KeyScan(key, n) == if exists a :: 0 <= a < n && key[a] == '"' then KeyEnded else InKey
  {
    if n > 0 { PlainScan(key, n - 1); }
  }

  /** A key with a colon after a quote that is safe all the same: `\":-,\"`. */
  lemma {:induction false} KeyThatRecovers()
    ensures var key := ['\\', '"', ':', '-', ',', '\\', '"']; IsChars(key) && KeySafe(key)
  {
    var key := ['\\', '"', ':', '-', ',', '\\', '"'];
    assert key[2..] == [':', '-', ',', '\\', '"'] && key[2..][1..] == ['-', ',', '\\', '"'];
    assert ['-', ',', '\\', '"'][1..] == [',', '\\', '"'] && [',', '\\', '"'][1..] == ['\\', '"'] && ['\\', '"'][2..] == [];
    assert KeyScan(key, 1) == InKey && KeyScan(key, 2) == KeyEnded && KeyScan(key, 3) == BeforeColonValue;
    assert KeyScan(key, 4) == InMinus && KeyScan(key, 5) == NextMember && KeyScan(key, 6) == NextMember;
    assert KeyScan(key, 7) == InKey;
  }

  // ----- Documents with one key

  predicate OnlyKey(v: Value, key: string)
    decreases v
  {
    v.Container? && v.fill.Filled? ==> EntriesOnlyKey(v.fill.entries, key)
  }

  predicate EntriesOnlyKey(es: Entries, key: string)
    decreases es
  {
    && (es.entry.head.Member? ==> es.entry.head.key == key)
    && OnlyKey(es.entry.value, key)
    && (es.More? ==> EntriesOnlyKey(es.rest, key))
  }

  lemma {:induction false} OnlySafeKey(v: Value, key: string)
    requires KeySafe(key) && OnlyKey(v, key)
    ensures KeysSafe(v)
    decreases v
  {
    if v.Container? && v.fill.Filled? { EntriesOnlySafeKey(v.fill.entries, key); }
  }

  lemma {:induction false} EntriesOnlySafeKey(es: Entries, key: string)
    requires KeySafe(key) && EntriesOnlyKey(es, key)
    ensures EntriesSafe(es)
    decreases es
  {
    OnlySafeKey(es.entry.value, key);
    if es.More? { EntriesOnlySafeKey(es.rest, key); }
  }

  /** Every repairable truncation of every document with this key only is repaired. */
  ghost predicate AlwaysRepaired(key: string) {
    forall d, j: nat :: ValidDocument(d) && OnlyKey(d.value, key) && j <= |SpellDocument(d)| && Repairable(d, j) ==>
      IsJson(Fixed(SpellDocument(d)[..j]))
  }

  // ----- Text that an unsafe key ends up in

  ghost predicate NoColon(s: string) { ':' !in s }

  const OPEN_KEY: string := ['{', '"']

  /** The scanner keeps something at the last character, for the first time since the key began. */
  predicate LosesAtLast(z: string) { z != [] && KeyScan(z, |z| - 1) != Lost && KeyScan(z, |z|) == Lost }

  lemma {:induction false} LosingStep(k: KeyState, m: nat, e: nat, c: char)
    requires k != Lost && KeyStep(k, c) == Lost
    ensures var st := StepChar(State(StackOf(k, Empty), m), e, c); st.mark == e && NoColon(Closers(st.open))
    ensures k == BeforeColonValue && c == '[' ==> Closers(StepChar(State(StackOf(k, Empty), m), e, c).open) == "]}"
  {
    assert Closers(Push(Object(ObjAfterValue), Empty)) == "}";
    if k == BeforeColonValue { OpenedCloses(c); }
  }

  lemma {:induction false} OpenedCloses(c: char)
    requires OpenedBy(c).Some?
    ensures var s := Push(OpenedBy(c).value, Push(Object(ObjAfterValue), Empty));
            NoColon(Closers(s)) && (c == '[' ==> Closers(s) == "]}")
    ensures !IsWide(c)
  {
    var s := Push(Object(ObjAfterValue), Empty);
    assert Closers(s) == "}";
    assert Closers(Push(OpenedBy(c).value, s)) == Closing(OpenedBy(c).value) + "}";
  }

  /** The repair keeps all of the text, which ends within what is the key's
      string or its value's, and adds no colon. */
  lemma {:induction false} LostCut(z: string) returns (x: string)
    requires LosesAtLast(z)
    ensures NoColon(x) && Fixed(OPEN_KEY + z) == OPEN_KEY + z + x
    ensures KeyScan(z, |z| - 1) == BeforeColonValue && z[|z| - 1] == '[' ==> x == "]}"
  {
    hide StepChar, Closers, KeyStep, StackOf;
    var t, n := OPEN_KEY + z, |z|;
    var s0 := State(Push(Object(ObjStart), Empty), 1);
    assert At(t, 2, z);
    StartsKey(t, s0);
    RunNext(s0, t, 1, 1);
    RunNothing(s0, t, 1);
    KeyRun(t, 2, z, Empty, 1, n + 1);
    RunCompose(s0, t, 1, 2, n + 1);
    RunNext(s0, t, 1, n + 1);
    assert t[n + 1] == z[n - 1];
    LosingStep(KeyScan(z, n - 1), 1, n + 2, z[n - 1]);
    var st := Run(s0, t, 1, n + 2);
    x := Closers(st.open);
    hide Run;
    assert Scan(t) == st && t[..st.mark] == t;
  }

  lemma {:induction false} StartsKey(t: string, s0: State)
    requires |t| >= 2 && t[0] == '{' && t[1] == '"' && s0 == State(Push(Object(ObjStart), Empty), 1)
    ensures FirstOpener(t, 0) == 0 && OpenValue(State(Empty, 0), 1, t[0], OpenedBy(t[0]).value) == s0
    ensures StepChar(s0, 2, t[1]) == State(Push(Object(Key), Empty), 1)
  {
  }

  // ----- Text that is no JSON

  /** A string body does not go on after an unescaped quote. */
  lemma {:induction false} BodyEndsOnce(k: string, k': string)
    requires IsChars(k) && IsChars(k') && |k'| < |k| && k[..|k'|] == k'
    ensures k[|k'|] != '"'
    decreases |k|
  {
    if k' != [] {
      assert k[0] == k'[0];
      var n := if k'[0] != '\\' then 1 else if k'[1] == 'u' then 6 else 2;
      assert k'[0] == '\\' ==> k[1] == k'[1];
      BodyEndsOnce(k[n..], k'[n..]) by { assert k[n..][..|k'| - n] == k'[n..]; }
    }
  }

  /** The first key of a text that begins with one, and the place of its colon. */
  lemma {:induction false} FirstKey(t: string) returns (key: string, c: nat)
    requires IsJson(t) && |t| >= 2 && t[0] == '{' && t[1] == '"'
    ensures IsChars(key) && |key| + 3 <= c < |t| && At(t, 2, key) && t[2 + |key|] == '"' && t[c] == ':'
  {
    var d :| ValidDocument(d) && SpellDocument(d) == t;
    hide *;
    StartsWithValue(d);
    key, c := KeyAndColon(t, d.value);
  }

  lemma {:induction false} KeyAndColon(t: string, v: Value) returns (key: string, c: nat)
    requires Valid(v) && At(t, 0, Spell(v)) && |t| >= 2 && t[0] == '{' && t[1] == '"'
    ensures IsChars(key) && |key| + 3 <= c < |t| && At(t, 2, key) && t[2 + |key|] == '"' && t[c] == ':'
  {
    hide *;
    var h := FirstHead(t, v);
    key, c := h.key, 3 + |h.key| + |h.afterKey|;
  }

  lemma {:induction false} StartsWithValue(d: Document)
    requires ValidDocument(d) && |SpellDocument(d)| >= 2 && SpellDocument(d)[0] == '{'
    ensures d.before == [] && At(SpellDocument(d), 0, Spell(d.value)) && Valid(d.value)
  {
    hide Spell, Valid;
    DocumentText(d);
  }

  lemma {:induction false} FirstHead(t: string, v: Value) returns (h: Head)
    requires Valid(v) && At(t, 0, Spell(v)) && |t| >= 2 && t[0] == '{' && t[1] == '"'
    ensures h.Member? && IsChars(h.key) && At(t, 2, h.key) && 3 + |h.key| + |h.afterKey| < |t|
    ensures t[2 + |h.key|] == '"' && t[3 + |h.key| + |h.afterKey|] == ':'
  {
    IsObject(t, v);
    var es := v.fill.entries;
    h := es.entry.head;
    ValidObject(v);
    hide *;
    EntriesText(t, es, 1);
    EntryText(t, es.entry, 1);
    NoBlank(t, h);
    MemberText(t, h, 1);
  }

  lemma {:induction false} IsObject(t: string, v: Value)
    requires Valid(v) && At(t, 0, Spell(v)) && |t| >= 2 && t[0] == '{' && t[1] == '"'
    ensures v.Container? && v.shape.Obj? && v.fill.Filled? && At(t, 1, SpellEntries(v.fill.entries))
  {
    FirstChar(t, v, 0);
    assert v.Container? && v.shape.Obj?;
    ContainerText(t, v, 0);
    if v.Container? && v.fill.Blank? { BlankFill(t, v.fill.ws); }
  }

  lemma {:induction false} ValidObject(v: Value)
    requires Valid(v) && v.Container? && v.shape.Obj? && v.fill.Filled?
    ensures var h := v.fill.entries.entry.head; h.Member? && ValidHead(Obj, h) && IsChars(h.key)
  {
    assert ValidEntries(v.shape, v.fill.entries) && ValidEntry(v.shape, v.fill.entries.entry);
  }

  lemma {:induction false} BlankFill(t: string, ws: string)
    requires IsBlank(ws) && At(t, 1, ws) && |t| > 1 + |ws| && t[1] == '"'
    ensures t[1 + |ws|] != '}'
  {
    if ws != [] { AtChar(t, 1, ws, 0); }
  }

  lemma {:induction false} NoBlank(t: string, h: Head)
    requires h.Member? && ValidHead(Obj, h) && At(t, 1, SpellHead(h)) && 1 < |t| && t[1] == '"'
    ensures h.ws == []
  {
    MemberText(t, h, 1);
    hide SpellHead;
  }

  /** A key that is cut, or that nothing but a closing token follows. */
  lemma {:induction false} NoColonAfterKey(key: string, p: nat, x: string)
    requires IsChars(key) && p <= |key| && NoColon(x)
    ensures !IsJson(OPEN_KEY + (key + ['"'])[..p + 1] + x)
  {
    var a := (key + ['"'])[..p + 1];
    var t := OPEN_KEY + a + x;
    assert forall i :: 3 + p <= i < |t| ==> t[i] == x[i - 3 - p] != ':';
    assert t[2..3 + p] == a;
    if IsJson(t) {
      var k, c := FirstKey(t);
      hide IsJson, IsChars;
      KeyReaches(key, k, p, t);
    }
  }

  lemma {:induction false} KeyReaches(key: string, k: string, p: nat, t: string)
    requires IsChars(key) && IsChars(k) && p <= |key|
    requires |t| >= 3 + p && t[2..3 + p] == (key + ['"'])[..p + 1]
    requires At(t, 2, k) && 2 + |k| < |t| && t[2 + |k|] == '"'
    ensures |k| >= p
  {
    hide IsChars;
    if |k| < p {
      assert forall i :: 0 <= i < p ==> t[2 + i] == t[2..3 + p][i] == key[i];
      assert forall i :: 0 <= i < |k| ==> k[i] == t[2..2 + |k|][i] == t[2 + i];
      assert key[..|k|] == k;
      BodyEndsOnce(key, k);
    }
  }

  // ----- The documents that fail

  /** The object with this key and a string with this body. */
  function OneMember(key: string, body: string): Document {
    Document("", Container(Obj, Filled(Last(Entry(Member("", key, "", ""), Value.Text(body), "")))), "")
  }

  /** What stands between the key's first character and the string's end. */
  function Inside(key: string, body: string): string { key + ['"', ':', '"'] + body }

  lemma {:induction false} OneMemberText(key: string, body: string)
    requires IsChars(key) && IsChars(body)
    ensures var d := OneMember(key, body);
            && ValidDocument(d) && OnlyKey(d.value, key) && SpellDocument(d) == OPEN_KEY + Inside(key, body) + ['"', '}']
            && forall j: nat :: 0 < j <= |SpellDocument(d)| ==> Repairable(d, j)
  {
    var d := OneMember(key, body);
    var es := d.value.fill.entries;
    OneMemberSpelling(key, body);
    OneMemberValid(key, body);
    hide IsChars, Spell, SpellHead, SpellEntry, SpellEntries, SpellDocument, ValidDocument;
    assert EntriesOnlyKey(es, key);
    forall k: nat ensures !CutsFirstMinus(d.value, k) { NoMinusIn(es, k); }
  }

  lemma {:induction false} OneMemberSpelling(key: string, body: string)
    ensures SpellDocument(OneMember(key, body)) == OPEN_KEY + Inside(key, body) + ['"', '}']
  {
    var d := OneMember(key, body);
    var es := d.value.fill.entries;
    assert SpellHead(es.entry.head) == ['"'] + key + ['"', ':'];
    assert Spell(es.entry.value) == ['"'] + body + ['"'];
    hide SpellHead;
    assert SpellEntry(es.entry) == ['"'] + Inside(key, body) + ['"'];
    hide SpellEntry;
    assert SpellEntries(es) == SpellEntry(es.entry) + "";
    hide SpellEntries;
    assert Spell(d.value) == ['{'] + SpellEntries(es) + ['}'];
    hide Spell;
    assert SpellDocument(d) == "" + Spell(d.value) + "";
  }

  lemma {:induction false} OneMemberValid(key: string, body: string)
    requires IsChars(key) && IsChars(body)
    ensures ValidDocument(OneMember(key, body))
  {
    hide IsChars;
    LastIsValid(OneMember(key, body).value.fill.entries.entry);
  }

  lemma {:induction false} LastIsValid(e: Entry)
    requires ValidEntry(Obj, e)
    ensures ValidEntries(Obj, Last(e))
  {
  }

  lemma {:induction false} NoMinusIn(es: Entries, k: int)
    requires es.Last? && es.entry.value.Text?
    ensures !(k > 0 && EntriesCutMinus(Obj, es, true, k - 1))
  {
  }

  lemma {:induction false} KeyScanPrefix(a: string, b: string, n: nat)
    requires n <= |a|
    ensures KeyScan(a + b, n) == KeyScan(a, n)
  {
    hide KeyStep;
    if n > 0 { KeyScanPrefix(a, b, n - 1); }
  }

  lemma {:induction false} KeyScanNext(a: string, c: char)
    ensures KeyScan(a + [c], |a| + 1) == KeyStep(KeyScan(a, |a|), c)
  {
    hide KeyStep;
    KeyScanPrefix(a, [c], |a|);
  }

  lemma {:induction false} FirstLost(z: string) returns (p: nat)
    requires KeyScan(z, |z|) == Lost
    ensures p < |z| && LosesAtLast(z[..p + 1])
  {
    p := |z| - 1;
    if KeyScan(z, p) == Lost {
      KeyScanPrefix(z[..p], z[p..], p);
      assert z[..p] + z[p..] == z;
      var q := FirstLost(z[..p]);
      assert z[..p][..q + 1] == z[..q + 1];
      p := q;
    } else {
      KeyScanPrefix(z[..p], z[p..], p);
      assert z[..p] + z[p..] == z && z[..p + 1] == z;
    }
  }

  /** The scanner keeps something within the key or at its end. */
  lemma {:induction false} LostInKey(key: string)
    requires IsChars(key) && KeyScan(key + ['"'], |key| + 1) == Lost
    ensures !AlwaysRepaired(key)
  {
    var z := key + ['"'];
    var p := FirstLost(z);
    var x := LostCut(z[..p + 1]);
    NoColonAfterKey(key, p, x);
    BodyOfNothing();
    FailsAt(key, "", p + 3, OPEN_KEY + z[..p + 1], x);
  }

  lemma {:induction false} BodyOfNothing()
    ensures IsChars("")
  {
  }

  /** A truncation whose repair is no JSON. */
  lemma {:induction false} FailsAt(key: string, body: string, j: nat, cut: string, x: string)
    requires IsChars(key) && IsChars(body) && 0 < j == |cut| <= |OPEN_KEY + Inside(key, body)|
    requires (OPEN_KEY + Inside(key, body))[..j] == cut && Fixed(cut) == cut + x && !IsJson(cut + x)
    ensures !AlwaysRepaired(key)
  {
    var d := OneMember(key, body);
    OneMemberText(key, body);
    hide IsJson, Fixed, Repairable, SpellDocument, IsChars;
    assert SpellDocument(d)[..j] == cut;
    assert !IsJson(Fixed(SpellDocument(d)[..j]));
  }

  // ----- Keys that end elsewhere

  const AFTER_VALUE: string := [',', '\\', '"', '\\', '"', ':', '[']
  const IN_KEY: string := [':', '[']

  lemma {:induction false} Bodies()
    ensures IsChars(AFTER_VALUE) && IsChars(IN_KEY)
  {
    assert AFTER_VALUE[1..] == ['\\', '"', '\\', '"', ':', '['] && AFTER_VALUE[1..][2..] == ['\\', '"', ':', '['];
    assert ['\\', '"', ':', '['][2..] == IN_KEY && IN_KEY[1..] == ['['] && ['['][1..] == [];
  }

  /** After the key the scanner is past a value, or in a key: the string that
      follows then brings it to open an array. */
  lemma {:induction false} StringLoses(key: string)
    requires var k := KeyStep(KeyScan(key, |key|), '"'); k == PastValue || k == InKey
    ensures var body := if KeyStep(KeyScan(key, |key|), '"') == PastValue then AFTER_VALUE else IN_KEY;
            var z := Inside(key, body);
            LosesAtLast(z) && KeyScan(z, |z| - 1) == BeforeColonValue && z[|z| - 1] == '['
  {
    if KeyStep(KeyScan(key, |key|), '"') == PastValue {
      PastValueLoses(key);
    } else {
      InKeyLoses(key);
    }
  }

  lemma {:induction false} PastValueLoses(key: string)
    requires KeyStep(KeyScan(key, |key|), '"') == PastValue
    ensures var z := Inside(key, AFTER_VALUE);
            LosesAtLast(z) && KeyScan(z, |z| - 1) == BeforeColonValue && z[|z| - 1] == '['
  {
    var rest := ['"', ':', '"', ',', '\\', '"', '\\', '"', ':', '['];
    assert ['"', ':', '"'] + AFTER_VALUE == rest;
    assert Inside(key, AFTER_VALUE) == key + rest;
    ScanOn(key, rest);
    hide KeyScan;
    var n := |key|;
    assert KeyScan(key + rest, n + 3) == PastValue;
    assert KeyScan(key + rest, n + 6) == InKey;
    assert KeyScan(key + rest, n + 9) == BeforeColonValue;
  }

  lemma {:induction false} InKeyLoses(key: string)
    requires KeyStep(KeyScan(key, |key|), '"') == InKey
    ensures var z := Inside(key, IN_KEY);
            LosesAtLast(z) && KeyScan(z, |z| - 1) == BeforeColonValue && z[|z| - 1] == '['
  {
    var rest := ['"', ':', '"', ':', '['];
    assert ['"', ':', '"'] + IN_KEY == rest;
    assert Inside(key, IN_KEY) == key + rest;
    ScanOn(key, rest);
    hide KeyScan;
    var n := |key|;
    assert KeyScan(key + rest, n + 2) == InKey;
    assert KeyScan(key + rest, n + 4) == BeforeColonValue;
  }

  /** The scan after the key, one character after another. */
  lemma {:induction false} ScanOn(key: string, rest: string)
    ensures KeyScan(key + rest, |key|) == KeyScan(key, |key|)
    ensures forall n :: 0 <= n < |rest| ==> KeyScan(key + rest, |key| + n + 1) == KeyStep(KeyScan(key + rest, |key| + n), rest[n])
  {
    KeyScanPrefix(key, rest, |key|);
  }

  /** The cut is within the string, and only closing tokens follow it. */
  lemma {:induction false} OpenString(key: string, body: string)
    requires IsChars(key) && (body == AFTER_VALUE || body == IN_KEY)
    ensures !IsJson(OPEN_KEY + Inside(key, body) + "]}")
  {
    hide *;
    var t := OPEN_KEY + Inside(key, body) + "]}";
    var q := 4 + |key|;
    OpenText(key, body);
    LexPunct(t, 0);
    LexString(t, 1, key);
    LexPunct(t, 3 + |key|);
    LexTail(t, q, body);
    LexCompose(Out(false), t, 0, 1, 3 + |key|);
    LexCompose(Out(false), t, 0, 3 + |key|, q);
    LexCompose(Out(false), t, 0, q, |t|);
    if IsJson(t) { LexJson(t); }
  }

  lemma {:induction false} OpenText(key: string, body: string)
    ensures var t, q := OPEN_KEY + Inside(key, body) + "]}", 4 + |key|;
            && q < |t| && t[0] == '{' && t[q - 1] == ':' && At(t, 1, "\"" + key + "\"")
            && t[q..] == ['"'] + body + [']', '}']
  {
    var t := OPEN_KEY + Inside(key, body) + "]}";
    assert t[1..3 + |key|] == "\"" + key + "\"";
  }

  lemma {:induction false} LexTail(t: string, q: nat, body: string)
    requires (body == AFTER_VALUE || body == IN_KEY) && q < |t| && t[q..] == ['"'] + body + [']', '}']
    ensures LexRun(Out(false), t, q, |t|) == In
  {
    var tail := if body == AFTER_VALUE then ['"', ',', '\\', '"', '\\', '"', ':', '[', ']', '}'] else ['"', ':', '[', ']', '}'];
    assert t[q..] == tail;
    LexSuffix(t, q, tail);
    LexSteps(tail, 0);
    hide LexRun;
    if body == AFTER_VALUE {
      assert LexRun(Out(false), tail, 0, 4) == In && LexRun(Out(false), tail, 0, 7) == In;
    } else {
      assert LexRun(Out(false), tail, 0, 2) == In;
    }
  }

  lemma {:induction false} LexSuffix(t: string, q: nat, tail: string)
    requires q <= |t| && t[q..] == tail
    ensures LexRun(Out(false), t, q, |t|) == LexRun(Out(false), tail, 0, |tail|)
  {
    LexShift(t, q, tail, |tail|);
  }

  lemma {:induction false} LexShift(t: string, q: nat, tail: string, n: nat)
    requires q <= |t| && t[q..] == tail && n <= |tail|
    ensures LexRun(Out(false), t, q, q + n) == LexRun(Out(false), tail, 0, n)
  {
    hide LexStep;
    if n > 0 {
      LexShift(t, q, tail, n - 1);
      assert t[q + n - 1] == t[q..][n - 1];
    }
  }

  lemma {:induction false} LexSteps(t: string, q: nat)
    requires q <= |t|
    ensures LexRun(Out(false), t, q, q) == Out(false)
    ensures forall n :: q <= n < |t| ==> LexRun(Out(false), t, q, n + 1) == LexStep(LexRun(Out(false), t, q, n), t[n])
  {
  }

  lemma {:induction false} EndsElsewhere(key: string)
    requires IsChars(key) && var k := KeyStep(KeyScan(key, |key|), '"'); k == PastValue || k == InKey
    ensures !AlwaysRepaired(key)
  {
    hide *;
    var body := if KeyStep(KeyScan(key, |key|), '"') == PastValue then AFTER_VALUE else IN_KEY;
    var z := Inside(key, body);
    StringLoses(key);
    var x := LostCut(z);
    OpenString(key, body);
    Bodies();
    FailsAt(key, body, |OPEN_KEY + z|, OPEN_KEY + z, x);
  }

  // ----- The keys exactly

  /** Every repairable truncation of every document with this key is repaired if
      and only if the scanner has kept nothing of the key and is, at its end,
      where it is at the end of any key. */
  lemma {:induction false} KeysExactly(key: string)
    requires IsChars(key)
    ensures AlwaysRepaired(key) <==> KeySafe(key)
  {
    if KeySafe(key) {
      forall d, j: nat | ValidDocument(d) && OnlyKey(d.value, key) && j <= |SpellDocument(d)| && Repairable(d, j)
        ensures IsJson(Fixed(SpellDocument(d)[..j]))
      {
        OnlySafeKey(d.value, key);
        RepairsExactly(d, j);
      }
    } else {
      KeyScanNext(key, '"');
      if KeyStep(KeyScan(key, |key|), '"') == Lost { LostInKey(key); } else { EndsElsewhere(key); }
    }
  }
}
