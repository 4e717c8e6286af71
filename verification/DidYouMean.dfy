/**
 The names an unknown name may have been meant for: the close candidates,
 nearest first, each once, at most three.
 */
module DidYouMean {
  import opened EditDistance

  /** A candidate with its distance, as the vector that is sorted holds it. */
  type Ranked = (nat, string)

  function NormalizeChar(c: char): char {
    if c == '-' then '_' else if 'A' <= c <= 'Z' then (c as int - 'A' as int + 'a' as int) as char else c
  }

  function Normalize(name: string): string { seq(|name|, i requires 0 <= i < |name| => NormalizeChar(name[i])) }

  function NameDistance(name: string, candidate: string): nat {
    Distance(Normalize(name), Normalize(candidate))
  }

  predicate IsClose(name: string, candidate: string) {
    NameDistance(name, candidate) <= 2 && NameDistance(name, candidate) * 3 <= Max(|name|, |candidate|)
  }

  // ----- The order of the sort

  predicate NameBefore(x: string, y: string) {
    if x == "" then y != ""
    else y != "" && (x[0] < y[0] || (x[0] == y[0] && NameBefore(x[1..], y[1..])))
  }

  predicate Before(x: Ranked, y: Ranked) { x.0 < y.0 || (x.0 == y.0 && NameBefore(x.1, y.1)) }

  lemma {:induction false} NameOrder(x: string, y: string, z: string)
    ensures !NameBefore(x, x)
    ensures x == y || NameBefore(x, y) || NameBefore(y, x)
    ensures NameBefore(x, y) && NameBefore(y, z) ==> NameBefore(x, z)
    decreases |x|
  {
    if x != "" {
      NameOrder(x[1..], if y == "" then "" else y[1..], if z == "" then "" else z[1..]);
      if y != "" && x[0] == y[0] && x[1..] == y[1..] {
        assert x == [x[0]] + x[1..] == y;
      }
    }
  }

  lemma {:induction false} RankOrder(x: Ranked, y: Ranked, z: Ranked)
    ensures !Before(x, x)
    ensures x == y || Before(x, y) || Before(y, x)
    ensures Before(x, y) && Before(y, z) ==> Before(x, z)
  {
    NameOrder(x.1, y.1, z.1);
  }

  ghost predicate Sorted(s: seq<Ranked>) { forall i, j :: 0 <= i < j < |s| ==> !Before(s[j], s[i]) }

  ghost predicate Increasing(s: seq<Ranked>) { forall i, j :: 0 <= i < j < |s| ==> Before(s[i], s[j]) }

  method SortUnstable(s: seq<Ranked>) returns (r: seq<Ranked>)
    ensures Sorted(r)
    ensures multiset(r) == multiset(s)
  {
    r := [];
    for n := 0 to |s|
      invariant Sorted(r) && multiset(r) == multiset(s[..n])
    {
      var k := |r|;
      while k > 0 && Before(s[n], r[k - 1])
        invariant 0 <= k <= |r|
        invariant forall i :: k <= i < |r| ==> Before(s[n], r[i])
      {
        k := k - 1;
      }
      r := Inserted(r, k, s[n]);
      assert s[..n + 1] == s[..n] + [s[n]];
    }
    assert s[..|s|] == s;
  }

  function Inserted(r: seq<Ranked>, k: nat, x: Ranked): (q: seq<Ranked>)
    requires k <= |r| && Sorted(r)
    requires forall i :: k <= i < |r| ==> Before(x, r[i])
    requires k > 0 ==> !Before(x, r[k - 1])
    ensures Sorted(q) && multiset(q) == multiset(r) + multiset{x}
  {
    assert r == r[..k] + r[k..];
    assert Sorted(r[..k] + [x] + r[k..]) by { InsertedSorted(r, k, x); }
    r[..k] + [x] + r[k..]
  }

  lemma {:induction false} InsertedSorted(r: seq<Ranked>, k: nat, x: Ranked)
    requires k <= |r| && Sorted(r)
    requires forall i :: k <= i < |r| ==> Before(x, r[i])
    requires k > 0 ==> !Before(x, r[k - 1])
    ensures Sorted(r[..k] + [x] + r[k..])
  {
    var q := r[..k] + [x] + r[k..];
    forall i, j | 0 <= i < j < |q| ensures !Before(q[j], q[i]) {
      if j == k {
        RankOrder(x, r[i], r[k - 1]);
        RankOrder(r[i], r[k - 1], x);
      } else if i == k {
        RankOrder(x, q[j], x);
      }
    }
  }

  /** Keeps the first of each run of equal names. */
  method Dedup(s: seq<Ranked>) returns (r: seq<Ranked>)
    requires Sorted(s)
    requires forall x, y :: x in s && y in s && x.1 == y.1 ==> x == y
    ensures Increasing(r)
    ensures forall x :: x in r <==> x in s
  {
    r := [];
    for n := 0 to |s|
      invariant Increasing(r) && forall x :: x in r <==> x in s[..n]
    {
      if r == [] || r[|r| - 1].1 != s[n].1 {
        forall i | 0 <= i < |r| ensures Before(r[i], s[n]) {
          RankBelow(s, n, r[i]);
          RankBelow(s, n, r[|r| - 1]);
          RankOrder(r[i], r[|r| - 1], s[n]);
        }
        r := r + [s[n]];
      } else {
        var last := r[|r| - 1];
        assert last in r;
        var k :| 0 <= k < n && s[..n][k] == last;
        assert s[k] in s && s[n] in s;
      }
      assert s[..n + 1] == s[..n] + [s[n]];
    }
    assert s[..|s|] == s;
  }

  lemma {:induction false} RankBelow(s: seq<Ranked>, n: nat, x: Ranked)
    requires Sorted(s) && n < |s| && x in s[..n]
    ensures x == s[n] || Before(x, s[n])
  {
    var k :| 0 <= k < n && s[..n][k] == x;
    RankOrder(x, s[n], x);
  }

  function Rank(name: string, candidate: string): Ranked { (NameDistance(name, candidate), candidate) }

  /** The close candidates with their distances. */
  ghost predicate AreClose(name: string, candidates: seq<string>, s: seq<Ranked>) {
    forall x :: x in s <==> x.1 in candidates && IsClose(name, x.1) && x == Rank(name, x.1)
  }

  method CollectClose(name: string, candidates: seq<string>) returns (close: seq<Ranked>)
    ensures AreClose(name, candidates, close)
  {
    close := [];
    for n := 0 to |candidates|
      invariant AreClose(name, candidates[..n], close)
    {
      hide Distance, Normalize;
      var c := candidates[n];
      var distance := ComputeDistance(Normalize(name), Normalize(c));
      if distance <= 2 && distance * 3 <= Max(|name|, |c|) {
        close := close + [(distance, c)];
      }
      assert candidates[..n + 1] == candidates[..n] + [c];
    }
    assert candidates[..|candidates|] == candidates;
  }

  /** Every other close candidate comes after the three that are named. */
  ghost predicate AreNearest(name: string, candidates: seq<string>, names: seq<string>) {
    && |names| <= 3
    && (forall x :: x in names ==> x in candidates && IsClose(name, x))
    && (forall i, j :: 0 <= i < j < |names| ==> Before(Rank(name, names[i]), Rank(name, names[j])))
    && (forall c :: c in candidates && IsClose(name, c) && c !in names ==>
          |names| == 3 && forall x :: x in names ==> Before(Rank(name, x), Rank(name, c)))
  }

  method Suggest(name: string, candidates: seq<string>) returns (names: seq<string>)
    ensures AreNearest(name, candidates, names)
  {
    var close := CollectClose(name, candidates);
    close := SortUnstable(close);
    assert AreClose(name, candidates, close) by {
      assert forall x :: x in close <==> x in multiset(close);
    }
    close := Dedup(close);
    var n := if |close| < 3 then |close| else 3;
    names := seq(n, i requires 0 <= i < n => close[i].1);
    FirstThree(name, candidates, close, names);
  }

  lemma {:induction false} FirstThree(name: string, candidates: seq<string>, ranked: seq<Ranked>, names: seq<string>)
    requires AreClose(name, candidates, ranked) && Increasing(ranked)
    requires |names| == if |ranked| < 3 then |ranked| else 3
    requires forall i :: 0 <= i < |names| ==> names[i] == ranked[i].1
    ensures AreNearest(name, candidates, names)
  {
    hide IsClose, Rank, Before;
    assert forall i :: 0 <= i < |ranked| ==> ranked[i] in ranked && ranked[i] == Rank(name, ranked[i].1);
    forall c | c in candidates && IsClose(name, c) && c !in names
      ensures |names| == 3 && forall x :: x in names ==> Before(Rank(name, x), Rank(name, c))
    {
      assert Rank(name, c).1 == c by { RankName(name, c); }
      assert Rank(name, c) in ranked;
      var k :| 0 <= k < |ranked| && ranked[k] == Rank(name, c);
      assert forall i :: 0 <= i < |names| ==> names[i] in names;
    }
  }

  lemma {:induction false} RankName(name: string, c: string)
    ensures Rank(name, c).1 == c
  {
  }

  lemma {:induction false} NoEarlier(name: string, candidates: seq<string>, p: seq<string>, q: seq<string>, k: nat)
    requires AreNearest(name, candidates, p) && AreNearest(name, candidates, q)
    requires k < |p| && k < |q| && p[..k] == q[..k]
    ensures !Before(Rank(name, q[k]), Rank(name, p[k]))
  {
    hide IsClose, Rank, Before;
    var x, y := Rank(name, q[k]), Rank(name, p[k]);
    RankOrder(x, y, x);
    RankOrder(x, x, x);
    assert forall l :: 0 <= l < k ==> p[..k][l] == p[l] && q[..k][l] == q[l];
  }

  lemma {:induction false} NextAgrees(name: string, candidates: seq<string>, p: seq<string>, q: seq<string>, k: nat)
    requires AreNearest(name, candidates, p) && AreNearest(name, candidates, q)
    requires k < |p| && k <= |q| && p[..k] == q[..k]
    ensures k < |q| && p[k] == q[k]
  {
    hide IsClose, Rank, Before;
    var y := Rank(name, p[k]);
    RankOrder(y, y, y);
    assert forall l :: 0 <= l < k ==> p[..k][l] == p[l] && q[..k][l] == q[l];
    if k < |q| {
      NoEarlier(name, candidates, p, q, k);
      NoEarlier(name, candidates, q, p, k);
      RankOrder(Rank(name, q[k]), y, y);
      RankName(name, p[k]);
      RankName(name, q[k]);
    }
  }

  /** There is one such list: the suggestion is determined. */
  lemma {:induction false} NearestIsUnique(name: string, candidates: seq<string>, p: seq<string>, q: seq<string>)
    requires AreNearest(name, candidates, p) && AreNearest(name, candidates, q)
    ensures p == q
  {
    hide AreNearest;
    var k := 0;
    while k < |p|
      invariant k <= |p| && k <= |q| && p[..k] == q[..k]
    {
      NextAgrees(name, candidates, p, q, k);
      assert p[..k + 1] == p[..k] + [p[k]] == q[..k] + [q[k]] == q[..k + 1];
      k := k + 1;
    }
    if k < |q| { NextAgrees(name, candidates, q, p, k); }
  }

  /** What is not compared: case and the kind of dash. */
  predicate IsSameLetter(c: char, d: char) {
    c == d || (c in "-_" && d in "-_") ||
    ('A' <= c <= 'Z' && d as int == c as int + 32) || ('A' <= d <= 'Z' && c as int == d as int + 32)
  }

  /** A candidate is close if and only if at most two edits, and no more than a
      third of the longer name, turn the one into a spelling of the other. */
  lemma {:induction false} CloseIsFewEdits(name: string, candidate: string)
    ensures IsClose(name, candidate) <==>
              exists script :: Makes(script, Normalize(name), Normalize(candidate)) && IsCheap(script, name, candidate)
    ensures Normalize(name) == Normalize(candidate) <==>
              |name| == |candidate| && forall i :: 0 <= i < |name| ==> IsSameLetter(name[i], candidate[i])
  {
    DistanceIsLeastCost(Normalize(name), Normalize(candidate));
    SameSpelling(name, candidate);
  }

  predicate IsCheap(script: seq<Edit>, name: string, candidate: string) {
    Cost(script) <= 2 && (Cost(script) * 3 <= |name| || Cost(script) * 3 <= |candidate|)
  }

  lemma {:induction false} SameSpelling(a: string, b: string)
    ensures Normalize(a) == Normalize(b) <==> |a| == |b| && forall i :: 0 <= i < |a| ==> IsSameLetter(a[i], b[i])
  {
    if |a| == |b| {
      forall i | 0 <= i < |a| ensures NormalizeChar(a[i]) == NormalizeChar(b[i]) <==> IsSameLetter(a[i], b[i]) { }
      if Normalize(a) == Normalize(b) {
        forall i | 0 <= i < |a| ensures IsSameLetter(a[i], b[i]) { assert Normalize(a)[i] == Normalize(b)[i]; }
      }
    }
  }
}
