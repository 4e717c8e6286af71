/**
 The JSON grammar, sections 2 to 7 of RFC 8259, as concrete syntax trees and
 the text each tree spells. A text is JSON when some valid tree spells it.

 A container is an array or an object; its entries are the array's elements or
 the object's members, each with the whitespace around it.
 */
module JsonGrammar {

  datatype Shape = Arr | Obj

  datatype Value =
    | Literal(word: string)
    | Number(minus: bool, whole: string, frac: string, exp: string)
    | Text(body: string)
    | Container(shape: Shape, fill: Fill)

  datatype Fill = Blank(ws: string) | Filled(entries: Entries)

  datatype Entries = Last(entry: Entry) | More(entry: Entry, rest: Entries)

  datatype Entry = Entry(head: Head, value: Value, trail: string)

  /** What precedes the value of an entry: whitespace, or a key and a colon. */
  datatype Head =
    | Item(ws: string)
    | Member(ws: string, key: string, afterKey: string, beforeValue: string)

  datatype Document = Document(before: string, value: Value, after: string)

  // ----- Characters and tokens

  predicate IsSpace(c: char) { c == ' ' || c == '\t' || c == '\n' || c == '\r' }

  predicate IsBlank(s: string) { forall k :: 0 <= k < |s| ==> IsSpace(s[k]) }

  predicate IsDigit(c: char) { '0' <= c <= '9' }

  predicate AllDigits(s: string) { forall k :: 0 <= k < |s| ==> IsDigit(s[k]) }

  predicate IsHex(c: char) { IsDigit(c) || 'a' <= c <= 'f' || 'A' <= c <= 'F' }

  /** `unescaped` of section 7. */
  predicate IsUnescaped(c: char) { c >= ' ' && c != '"' && c != '\\' }

  predicate IsSimpleEscape(c: char) { c in "\"\\/bfnrt" }

  /** `*char` of section 7: what may stand between the quotes of a string. */
  predicate IsChars(s: string) {
    if s == [] then true
    else if s[0] == '\\' then
      |s| >= 2 &&
      if s[1] == 'u'
      then |s| >= 6 && IsHex(s[2]) && IsHex(s[3]) && IsHex(s[4]) && IsHex(s[5]) && IsChars(s[6..])
      else IsSimpleEscape(s[1]) && IsChars(s[2..])
    else IsUnescaped(s[0]) && IsChars(s[1..])
  }

  /** `int` of section 6. */
  predicate IsWhole(s: string) { s != [] && AllDigits(s) && (s[0] == '0' ==> |s| == 1) }

  /** `[ frac ]` of section 6. */
  predicate IsFrac(s: string) { s == [] || (s[0] == '.' && |s| >= 2 && AllDigits(s[1..])) }

  predicate HasSign(s: string) { |s| >= 2 && (s[1] == '+' || s[1] == '-') }

  /** `[ exp ]` of section 6. */
  predicate IsExp(s: string) {
    s == [] ||
    ((s[0] == 'e' || s[0] == 'E') &&
     if HasSign(s) then |s| >= 3 && AllDigits(s[2..]) else |s| >= 2 && AllDigits(s[1..]))
  }

  predicate IsLiteral(s: string) { s == "true" || s == "false" || s == "null" }

  // ----- Valid trees

  predicate Valid(v: Value)
    decreases v
  {
    match v
    case Literal(w) => IsLiteral(w)
    case Number(_, whole, frac, exp) => IsWhole(whole) && IsFrac(frac) && IsExp(exp)
    case Text(body) => IsChars(body)
    case Container(shape, Blank(ws)) => IsBlank(ws)
    case Container(shape, Filled(es)) => ValidEntries(shape, es)
  }

  predicate ValidEntries(shape: Shape, es: Entries)
    decreases es
  {
    ValidEntry(shape, es.entry) && (es.More? ==> ValidEntries(shape, es.rest))
  }

  predicate ValidEntry(shape: Shape, e: Entry)
    decreases e
  {
    ValidHead(shape, e.head) && Valid(e.value) && IsBlank(e.trail)
  }

  predicate ValidHead(shape: Shape, h: Head) {
    match h
    case Item(ws) => shape.Arr? && IsBlank(ws)
    case Member(ws, key, afterKey, beforeValue) =>
      shape.Obj? && IsBlank(ws) && IsChars(key) && IsBlank(afterKey) && IsBlank(beforeValue)
  }

  predicate ValidDocument(d: Document) { IsBlank(d.before) && Valid(d.value) && IsBlank(d.after) }

  // ----- The text of a tree

  function Spell(v: Value): (s: string)
    ensures Valid(v) ==> s != []
  {
    match v
    case Literal(w) => w
    case Number(minus, whole, frac, exp) => (if minus then "-" else "") + whole + frac + exp
    case Text(body) => "\"" + body + "\""
    case Container(shape, Blank(ws)) => [OpenChar(shape)] + ws + [CloseChar(shape)]
    case Container(shape, Filled(es)) => [OpenChar(shape)] + SpellEntries(es) + [CloseChar(shape)]
  }

  function SpellEntries(es: Entries): string {
    SpellEntry(es.entry) + if es.Last? then "" else "," + SpellEntries(es.rest)
  }

  function SpellEntry(e: Entry): string { SpellHead(e.head) + Spell(e.value) + e.trail }

  function SpellHead(h: Head): string {
    match h
    case Item(ws) => ws
    case Member(ws, key, afterKey, beforeValue) => ws + "\"" + key + "\"" + afterKey + ":" + beforeValue
  }

  function SpellDocument(d: Document): string { d.before + Spell(d.value) + d.after }

  function OpenChar(shape: Shape): char { if shape.Arr? then '[' else '{' }

  function CloseChar(shape: Shape): char { if shape.Arr? then ']' else '}' }

  ghost predicate IsJson(s: string) { exists d :: ValidDocument(d) && SpellDocument(d) == s }
}
