/**
 Optimal-string-alignment distance: the table that computes it, and edit
 scripts, whose least cost it is. A script edits a text from left to right and
 touches no position twice.
 */
module EditDistance {
  import opened Wrappers

  // ----- The distance of prefixes, cell by cell

  function Min(x: nat, y: nat): nat { if x <= y then x else y }

  function Max(x: nat, y: nat): nat { if x <= y then y else x }

  predicate Swapped(a: string, b: string, i: nat, j: nat)
    requires i <= |a| && j <= |b|
  {
    i > 1 && j > 1 && a[i - 1] == b[j - 2] && a[i - 2] == b[j - 1]
  }

  /** One cell from the ones above, to the left, on the diagonal and two back. */
  function Best(a: string, b: string, i: nat, j: nat, up: nat, left: nat, diagonal: nat, back: nat): nat
    requires 0 < i <= |a| && 0 < j <= |b|
  {
    var cost := if a[i - 1] != b[j - 1] then 1 else 0;
    var best := Min(Min(up + 1, left + 1), diagonal + cost);
    if Swapped(a, b, i, j) then Min(best, back + 1) else best
  }

  /** The distance of the first `i` characters of `a` and the first `j` of `b`. */
  function Cell(a: string, b: string, i: nat, j: nat): nat
    requires i <= |a| && j <= |b|
    decreases i + j
  {
    if i == 0 then j
    else if j == 0 then i
    else Best(a, b, i, j, Cell(a, b, i - 1, j), Cell(a, b, i, j - 1), Cell(a, b, i - 1, j - 1),
              if i > 1 && j > 1 then Cell(a, b, i - 2, j - 2) else 0)
  }

  lemma {:induction false} CellEdge(a: string, b: string)
    ensures forall i :: 0 <= i <= |a| ==> Cell(a, b, i, 0) == i
    ensures forall j :: 0 <= j <= |b| ==> Cell(a, b, 0, j) == j
  {
  }

  lemma {:induction false} CellRule(a: string, b: string, i: nat, j: nat)
    requires 0 < i <= |a| && 0 < j <= |b|
    ensures Cell(a, b, i, j)
         == Best(a, b, i, j, Cell(a, b, i - 1, j), Cell(a, b, i, j - 1), Cell(a, b, i - 1, j - 1),
                 if i > 1 && j > 1 then Cell(a, b, i - 2, j - 2) else 0)
  {
    hide Best;
  }

  function Distance(a: string, b: string): nat { Cell(a, b, |a|, |b|) }

  method ComputeDistance(a: string, b: string) returns (d: nat)
    ensures d == Distance(a, b)
  {
    hide Cell;
    CellEdge(a, b);
    var rows := new nat[|a| + 1, |b| + 1]((_, _) => 0);
    for i := 0 to |a| + 1
      invariant forall k :: 0 <= k < i ==> rows[k, 0] == Cell(a, b, k, 0)
    {
      rows[i, 0] := i;
    }
    for j := 0 to |b| + 1
      invariant forall k :: 0 <= k <= |a| ==> rows[k, 0] == Cell(a, b, k, 0)
      invariant forall k :: 0 <= k < j ==> rows[0, k] == Cell(a, b, 0, k)
    {
      rows[0, j] := j;
    }
    for i := 1 to |a| + 1
      invariant forall k, l :: 0 <= k < i && 0 <= l <= |b| ==> rows[k, l] == Cell(a, b, k, l)
      invariant forall k :: 0 <= k <= |a| ==> rows[k, 0] == Cell(a, b, k, 0)
    {
      for j := 1 to |b| + 1
        invariant forall k, l :: 0 <= k < i && 0 <= l <= |b| ==> rows[k, l] == Cell(a, b, k, l)
        invariant forall k :: 0 <= k <= |a| ==> rows[k, 0] == Cell(a, b, k, 0)
        invariant forall l :: 0 <= l < j ==> rows[i, l] == Cell(a, b, i, l)
      {
        var cost := if a[i - 1] != b[j - 1] then 1 else 0;
        var best := Min(Min(rows[i - 1, j] + 1, rows[i, j - 1] + 1), rows[i - 1, j - 1] + cost);
        if i > 1 && j > 1 && a[i - 1] == b[j - 2] && a[i - 2] == b[j - 1] {
          best := Min(best, rows[i - 2, j - 2] + 1);
        }
        CellRule(a, b, i, j);
        rows[i, j] := best;
      }
    }
    d := rows[|a|, |b|];
  }

  // ----- Edit scripts

  datatype Edit = Keep | Substitute(c: char) | Insert(c: char) | Delete | Swap

  /** The text the script makes of `a`, if the script reads exactly `a`. */
  function Apply(script: seq<Edit>, a: string): Option<string>
    decreases |script|, 0
  {
    if script == [] then (if a == "" then Some("") else None)
    else ApplyLast(script[..|script| - 1], script[|script| - 1], a)
  }

  /** What a last edit makes of `a`, given what the edits before it make. */
  function ApplyLast(rest: seq<Edit>, e: Edit, a: string): Option<string>
    decreases |rest|, 1
  {
    var n := |a|;
    match e
    case Keep => if n < 1 then None else Then(Apply(rest, a[..n - 1]), [a[n - 1]])
    case Substitute(c) => if n < 1 then None else Then(Apply(rest, a[..n - 1]), [c])
    case Insert(c) => Then(Apply(rest, a), [c])
    case Delete => if n < 1 then None else Apply(rest, a[..n - 1])
    case Swap => if n < 2 then None else Then(Apply(rest, a[..n - 2]), [a[n - 1], a[n - 2]])
  }

  function Then(o: Option<string>, s: string): Option<string> { if o.None? then None else Some(o.value + s) }

  /** Every edit but keeping a character costs one. */
  function Cost(script: seq<Edit>): nat {
    if script == [] then 0
    else Cost(script[..|script| - 1]) + if script[|script| - 1].Keep? then 0 else 1
  }

  // ----- The distance is the least cost

  lemma {:induction false} Append(script: seq<Edit>, e: Edit, a: string)
    ensures Apply(script + [e], a) == ApplyLast(script, e, a)
    ensures Cost(script + [e]) == Cost(script) + if e.Keep? then 0 else 1
  {
    assert (script + [e])[..|script + [e]| - 1] == script;
  }

  lemma {:induction false} EmptyScript()
    ensures Apply([], "") == Some("") && Cost([]) == 0
    ensures forall a :: Apply([], a).Some? ==> a == "" && Apply([], a).value == ""
  {
  }

  /** Some script turns `a` into `b` at the cost of the distance. */
  lemma {:induction false} CheapestScript(a: string, b: string, i: nat, j: nat) returns (script: seq<Edit>)
    requires i <= |a| && j <= |b|
    ensures Apply(script, a[..i]) == Some(b[..j]) && Cost(script) == Cell(a, b, i, j)
    decreases i + j
  {
    hide Cell, Apply, Cost;
    CellEdge(a, b);
    if i > 0 && j > 0 { CellRule(a, b, i, j); }
    var rest: seq<Edit>;
    var last: Edit;
    if i == 0 && j == 0 {
      EmptyScript();
      return [];
    } else if j > 0 && Cell(a, b, i, j) == Cell(a, b, i, j - 1) + 1 {
      rest := CheapestScript(a, b, i, j - 1);
      last := Insert(b[j - 1]);
      assert b[..j] == b[..j - 1] + [b[j - 1]];
    } else if i > 0 && Cell(a, b, i, j) == Cell(a, b, i - 1, j) + 1 {
      rest := CheapestScript(a, b, i - 1, j);
      last := Delete;
      assert a[..i][..i - 1] == a[..i - 1];
    } else if Swapped(a, b, i, j) && Cell(a, b, i, j) == Cell(a, b, i - 2, j - 2) + 1 {
      rest := CheapestScript(a, b, i - 2, j - 2);
      last := Swap;
      assert a[..i][..i - 2] == a[..i - 2];
      assert b[..j] == b[..j - 2] + [b[j - 2], b[j - 1]];
    } else {
      rest := CheapestScript(a, b, i - 1, j - 1);
      last := if a[i - 1] == b[j - 1] then Keep else Substitute(b[j - 1]);
      assert a[..i][..i - 1] == a[..i - 1];
      assert b[..j] == b[..j - 1] + [b[j - 1]];
    }
    Append(rest, last, a[..i]);
    script := rest + [last];
  }

  /** No script turns `a` into `b` at less than the distance. */
  lemma {:induction false} NoCheaperScript(script: seq<Edit>, a: string, b: string, i: nat, j: nat)
    requires i <= |a| && j <= |b| && Apply(script, a[..i]) == Some(b[..j])
    ensures Cell(a, b, i, j) <= Cost(script)
  {
    hide Cell, Apply, Cost;
    CellEdge(a, b);
    if i > 0 && j > 0 { CellRule(a, b, i, j); }
    if script == [] {
      EmptyScript();
    } else {
      var rest, e, p := script[..|script| - 1], script[|script| - 1], b[..j];
      assert script == rest + [e];
      Append(rest, e, a[..i]);
      var k, l := Reads(e), Writes(e);
      assert a[..i][..i - k] == a[..i - k];
      assert b[..j - l] == p[..j - l];
      if l >= 1 { assert p[j - 1] == b[j - 1]; }
      if l == 2 { assert p[j - 2] == b[j - 2]; }
      NoCheaperScript(rest, a, b, i - k, j - l);
    }
  }

  /** How many characters an edit reads and writes. */
  function Reads(e: Edit): nat { if e.Swap? then 2 else if e.Insert? then 0 else 1 }

  function Writes(e: Edit): nat { if e.Swap? then 2 else if e.Delete? then 0 else 1 }

  ghost predicate Makes(script: seq<Edit>, a: string, b: string) { Apply(script, a) == Some(b) }

  /** The distance is the least cost of a script from `a` to `b`. */
  lemma {:induction false} DistanceIsLeastCost(a: string, b: string)
    ensures exists script :: Makes(script, a, b) && Cost(script) == Distance(a, b)
    ensures forall script :: Makes(script, a, b) ==> Distance(a, b) <= Cost(script)
  {
    assert a[..|a|] == a && b[..|b|] == b;
    var best := CheapestScript(a, b, |a|, |b|);
    assert Makes(best, a, b);
    forall script | Makes(script, a, b) ensures Distance(a, b) <= Cost(script) {
      NoCheaperScript(script, a, b, |a|, |b|);
    }
  }

  lemma {:induction false} Symmetric(a: string, b: string, i: nat, j: nat)
    requires i <= |a| && j <= |b|
    ensures Cell(a, b, i, j) == Cell(b, a, j, i)
    decreases i + j
  {
    hide Cell;
    CellEdge(a, b);
    CellEdge(b, a);
    if i > 0 && j > 0 {
      CellRule(a, b, i, j);
      CellRule(b, a, j, i);
      Symmetric(a, b, i - 1, j);
      Symmetric(a, b, i, j - 1);
      Symmetric(a, b, i - 1, j - 1);
      if i > 1 && j > 1 { Symmetric(a, b, i - 2, j - 2); }
    }
  }

  lemma {:induction false} CellBounds(a: string, b: string, i: nat, j: nat)
    requires i <= |a| && j <= |b|
    ensures i - j <= Cell(a, b, i, j) && j - i <= Cell(a, b, i, j) <= Max(i, j)
    ensures Cell(a, b, i, j) == 0 <==> a[..i] == b[..j]
    decreases i + j
  {
    hide Cell;
    CellEdge(a, b);
    if i > 0 && j > 0 {
      CellRule(a, b, i, j);
      CellBounds(a, b, i - 1, j);
      CellBounds(a, b, i, j - 1);
      CellBounds(a, b, i - 1, j - 1);
      if i > 1 && j > 1 { CellBounds(a, b, i - 2, j - 2); }
      assert a[..i] == a[..i - 1] + [a[i - 1]];
      assert b[..j] == b[..j - 1] + [b[j - 1]];
    }
  }

  /** Symmetric, zero exactly on equal texts, at least the difference of the
      lengths and at most the longer length. */
  lemma {:induction false} DistanceLaws(a: string, b: string)
    ensures Distance(a, b) == Distance(b, a)
    ensures Distance(a, b) == 0 <==> a == b
    ensures |a| - |b| <= Distance(a, b) && |b| - |a| <= Distance(a, b) <= Max(|a|, |b|)
  {
    Symmetric(a, b, |a|, |b|);
    CellBounds(a, b, |a|, |b|);
    assert a[..|a|] == a && b[..|b|] == b;
  }
}
