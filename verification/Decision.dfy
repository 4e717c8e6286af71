/**
 Validation of decision answers under declared rounding, over the reals.
 An `f64` is a real number or not finite; rounding of the arithmetic itself is
 not modelled.
 */
module Decision {
  import opened Wrappers

  // ----- Insertion-ordered maps

  datatype IndexMapOf<+V> = IndexMap(keys: seq<string>, at: map<string, V>)

  ghost predicate Distinct(keys: seq<string>) { forall i, j :: 0 <= i < j < |keys| ==> keys[i] != keys[j] }

  ghost predicate IsIndexMap<V>(m: IndexMapOf<V>) { Distinct(m.keys) && forall k :: k in m.keys <==> k in m.at }

  type IndexMap<V> = m: IndexMapOf<V> | IsIndexMap(m) witness IndexMap([], map[])

  type KeyList = keys: seq<string> | Distinct(keys)

  // ----- Questions and answers

  datatype Float = Finite(value: real) | NonFinite

  /** A score question has `levels` ordered levels, indexed from zero. */
  datatype Question = ChoiceQuestion(options: KeyList) | ScoreQuestion(levels: nat) | BooleanQuestion

  datatype Answer =
    | ChoiceAnswer(choice: string, probabilities: Option<IndexMap<Float>>)
    | ScoreAnswer(score: Float, probabilities: Option<IndexMap<Float>>)
    | BooleanAnswer(probability: Float)

  datatype Rounding = Rounding(probabilityDecimals: Option<nat>, scoreDecimals: Option<nat>)

  datatype Error =
    | NoQuestions
    | NoOptions(id: string)
    | TooFewLevels(id: string)
    | BadDecimals
    | WrongAnswerSet
    | UnknownOption(id: string)
    | IncompleteDistribution(id: string)
    | BadSum(id: string)
    | NotHighest(id: string)
    | ScoreOutOfRange(id: string)
    | BadMean(id: string)
    | NotProbability(id: string)
    | WrongType(id: string)

  type Check = Result<(), Error>

  // ----- The request

  function ValidateInput(questions: IndexMap<Question>): Check {
    if questions.keys == [] then Err(NoQuestions) else InputFrom(questions, 0)
  }

  function InputFrom(questions: IndexMap<Question>, i: nat): Check
    requires i <= |questions.keys|
    decreases |questions.keys| - i
  {
    if i == |questions.keys| then Ok(())
    else
      var id := questions.keys[i];
      match questions.at[id]
      case ChoiceQuestion(options) => if options == [] then Err(NoOptions(id)) else InputFrom(questions, i + 1)
      case ScoreQuestion(levels) => if levels < 2 then Err(TooFewLevels(id)) else InputFrom(questions, i + 1)
      case BooleanQuestion => InputFrom(questions, i + 1)
  }

  predicate Answerable(q: Question) {
    match q
    case ChoiceQuestion(options) => options != []
    case ScoreQuestion(levels) => levels >= 2
    case BooleanQuestion => true
  }

  // ----- The answers

  const TOLERANCE: real := 0.000001

  function Abs(x: real): real { if x < 0.0 then -x else x }

  predicate IsProbability(p: Float) { p.Finite? && 0.0 <= p.value <= 1.0 }

  function ValueOf(p: Float): real { if p.Finite? then p.value else 0.0 }

  function Sum(keys: seq<string>, f: string -> real): real {
    if keys == [] then 0.0 else Sum(keys[..|keys| - 1], f) + f(keys[|keys| - 1])
  }

  /** The mean index of the keys, weighted by `f`. */
  function Mean(keys: seq<string>, f: string -> real): real {
    if keys == [] then 0.0
    else Mean(keys[..|keys| - 1], f) + (|keys| - 1) as real * f(keys[|keys| - 1])
  }

  function IndexSum(n: nat, e: real): real { if n == 0 then 0.0 else IndexSum(n - 1, e) + (n - 1) as real * e }

  function Weights(m: IndexMap<Float>): string -> real { k => if k in m.at then ValueOf(m.at[k]) else 0.0 }

  function ValidateDistribution(m: IndexMap<Float>, keys: seq<string>, id: string, e: real): Check {
    if |m.keys| != |keys| || (exists k :: k in keys && k !in m.at) ||
       (exists k :: k in m.keys && !IsProbability(m.at[k]))
    then Err(IncompleteDistribution(id))
    else if Abs(Sum(m.keys, Weights(m)) - 1.0) > TOLERANCE + |keys| as real * e then Err(BadSum(id))
    else Ok(())
  }

  function TenthPower(decimals: nat): (r: real)
    ensures r > 0.0
  {
    if decimals == 0 then 1.0 else TenthPower(decimals - 1) / 10.0
  }

  function RoundingError(decimals: Option<nat>): Result<real, Error> {
    match decimals
    case None => Ok(0.0)
    case Some(d) => if d <= 15 then Ok(0.5 * TenthPower(d)) else Err(BadDecimals)
  }

  /** The decimal digits of a level index. */
  function Digits(n: nat): string {
    if n < 10 then [Digit(n)] else Digits(n / 10) + [Digit(n % 10)]
  }

  function Digit(d: nat): char
    requires d < 10
  {
    ('0' as int + d) as char
  }

  function LevelKeys(levels: nat): (keys: seq<string>)
    ensures |keys| == levels && forall i :: 0 <= i < levels ==> keys[i] == Digits(i)
  {
    seq(levels, i requires 0 <= i < levels => Digits(i))
  }

  function ValidateAnswer(id: string, q: Question, a: Answer, pe: real, se: real): Check
    requires Answerable(q)
  {
    match (q, a)
    case (ChoiceQuestion(options), ChoiceAnswer(choice, probabilities)) =>
      if choice !in options then Err(UnknownOption(id))
      else if probabilities.None? then Ok(())
      else
        var m := probabilities.value;
        var checked := ValidateDistribution(m, options, id, pe);
        if checked.Err? then checked
        else if exists k :: k in m.keys && Weights(m)(k) > Weights(m)(choice) + TOLERANCE
        then Err(NotHighest(id))
        else Ok(())
    case (ScoreQuestion(levels), ScoreAnswer(score, probabilities)) =>
      if !score.Finite? || score.value < 0.0 || score.value > (levels - 1) as real
      then Err(ScoreOutOfRange(id))
      else if probabilities.None? then Ok(())
      else
        var m := probabilities.value;
        var checked := ValidateDistribution(m, LevelKeys(levels), id, pe);
        if checked.Err? then checked
        else if Abs(Mean(LevelKeys(levels), Weights(m)) - score.value) > TOLERANCE + IndexSum(levels, pe) + se
        then Err(BadMean(id))
        else Ok(())
    case (BooleanQuestion, BooleanAnswer(probability)) =>
      if IsProbability(probability) then Ok(()) else Err(NotProbability(id))
    case _ => Err(WrongType(id))
  }

  ghost predicate AllAnswerable(questions: IndexMap<Question>) {
    forall id :: id in questions.at ==> Answerable(questions.at[id])
  }

  function AnswersFrom(questions: IndexMap<Question>, answers: IndexMap<Answer>, i: nat, pe: real, se: real): Check
    requires i <= |questions.keys| && AllAnswerable(questions)
    requires forall id :: id in questions.keys ==> id in answers.at
    decreases |questions.keys| - i
  {
    if i == |questions.keys| then Ok(())
    else
      var id := questions.keys[i];
      var checked := ValidateAnswer(id, questions.at[id], answers.at[id], pe, se);
      if checked.Err? then checked else AnswersFrom(questions, answers, i + 1, pe, se)
  }

  /** Called with questions that passed `ValidateInput`. */
  function ValidateAnswers(questions: IndexMap<Question>, answers: IndexMap<Answer>, rounding: Option<Rounding>): Check
    requires AllAnswerable(questions)
  {
    var r := if rounding.Some? then rounding.value else Rounding(None, None);
    var pe := RoundingError(r.probabilityDecimals);
    var se := RoundingError(r.scoreDecimals);
    if pe.Err? then Err(pe.error)
    else if se.Err? then Err(se.error)
    else if |answers.keys| != |questions.keys| || (exists id :: id in questions.keys && id !in answers.at)
    then Err(WrongAnswerSet)
    else AnswersFrom(questions, answers, 0, pe.value, se.value)
  }

  // ----- Acceptance

  /** What the first failing question reports, if any fails. */
  lemma {:induction false} InputAccepted(questions: IndexMap<Question>, i: nat)
    requires i <= |questions.keys|
    ensures InputFrom(questions, i).Ok? <==> forall k :: i <= k < |questions.keys| ==> Answerable(questions.at[questions.keys[k]])
    decreases |questions.keys| - i
  {
    if i < |questions.keys| { InputAccepted(questions, i + 1); }
  }

  /** A request is valid exactly when it has questions and each can be answered. */
  lemma {:induction false} ValidInputIsAnswerable(questions: IndexMap<Question>)
    ensures ValidateInput(questions).Ok? <==> questions.keys != [] && AllAnswerable(questions)
  {
    InputAccepted(questions, 0);
  }

  lemma {:induction false} FirstRejection(questions: IndexMap<Question>, answers: IndexMap<Answer>, i: nat, pe: real, se: real)
    requires i <= |questions.keys| && AllAnswerable(questions)
    requires forall id :: id in questions.keys ==> id in answers.at
    ensures AnswersFrom(questions, answers, i, pe, se).Ok? <==>
              forall k :: i <= k < |questions.keys| ==>
                ValidateAnswer(questions.keys[k], questions.at[questions.keys[k]], answers.at[questions.keys[k]], pe, se).Ok?
    decreases |questions.keys| - i
  {
    hide ValidateAnswer;
    if i < |questions.keys| { FirstRejection(questions, answers, i + 1, pe, se); }
  }

  /** As many distinct keys as the other list, and all of them, is the same set. */
  lemma {:induction false} SameKeys(a: seq<string>, b: seq<string>)
    requires Distinct(a) && Distinct(b) && |a| == |b|
    requires forall k :: k in a ==> k in b
    ensures forall k :: k in b ==> k in a
  {
    var s, t := set k | k in a, set k | k in b;
    Cardinality(a);
    Cardinality(b);
    assert s <= t;
    if s != t {
      assert s < t;
      SubsetSize(s, t);
    }
    assert s == t;
    forall k | k in b ensures k in a { assert k in t; }
  }

  lemma {:induction false} SubsetSize(s: set<string>, t: set<string>)
    requires s < t
    ensures |s| < |t|
  {
    assert t == s + (t - s);
  }

  lemma {:induction false} Cardinality(a: seq<string>)
    requires Distinct(a)
    ensures |set k | k in a| == |a|
  {
    if a != [] {
      var n := |a| - 1;
      Cardinality(a[..n]);
      assert (set k | k in a) == (set k | k in a[..n]) + {a[n]};
    }
  }

  lemma {:induction false} DigitsInjective(a: nat, b: nat)
    requires Digits(a) == Digits(b)
    ensures a == b
  {
    var x, y := Digits(a), Digits(b);
    DigitsLength(a);
    DigitsLength(b);
    assert x[|x| - 1] == y[|y| - 1];
    if a >= 10 && b >= 10 {
      assert Digits(a / 10) == x[..|x| - 1] == y[..|y| - 1] == Digits(b / 10);
      DigitsInjective(a / 10, b / 10);
    }
  }

  lemma {:induction false} DigitsLength(n: nat)
    ensures |Digits(n)| >= if n < 10 then 1 else 2
  {
    if n >= 10 { DigitsLength(n / 10); }
  }

  lemma {:induction false} LevelKeysDistinct(levels: nat)
    ensures Distinct(LevelKeys(levels))
  {
    var keys := LevelKeys(levels);
    forall i, j | 0 <= i < j < levels ensures keys[i] != keys[j] {
      if keys[i] == keys[j] { DigitsInjective(i, j); }
    }
  }

  /** A distribution over exactly these keys that sums to one but for rounding. */
  ghost predicate IsDistribution(m: IndexMap<Float>, keys: seq<string>, e: real) {
    && (forall k :: k in m.at <==> k in keys)
    && (forall k :: k in m.at ==> IsProbability(m.at[k]))
    && Abs(Sum(m.keys, Weights(m)) - 1.0) <= TOLERANCE + |keys| as real * e
  }

  ghost predicate Fits(q: Question, a: Answer, pe: real, se: real)
    requires Answerable(q)
  {
    match q
    case ChoiceQuestion(options) =>
      && a.ChoiceAnswer? && a.choice in options
      && (a.probabilities.Some? ==>
            var m := a.probabilities.value;
            IsDistribution(m, options, pe) &&
            forall k :: k in options ==> Weights(m)(k) <= Weights(m)(a.choice) + TOLERANCE)
    case ScoreQuestion(levels) =>
      && a.ScoreAnswer? && a.score.Finite? && 0.0 <= a.score.value <= (levels - 1) as real
      && (a.probabilities.Some? ==>
            var m := a.probabilities.value;
            IsDistribution(m, LevelKeys(levels), pe) &&
            Abs(Mean(LevelKeys(levels), Weights(m)) - a.score.value) <= TOLERANCE + IndexSum(levels, pe) + se)
    case BooleanQuestion => a.BooleanAnswer? && IsProbability(a.probability)
  }

  lemma {:induction false} DistributionAccepted(m: IndexMap<Float>, keys: seq<string>, id: string, e: real)
    requires Distinct(keys)
    ensures ValidateDistribution(m, keys, id, e).Ok? <==> IsDistribution(m, keys, e)
  {
    assert forall k :: k in m.keys <==> k in m.at;
    if |m.keys| == |keys| && forall k :: k in keys ==> k in m.at { SameKeys(keys, m.keys); }
    if forall k :: k in m.at <==> k in keys { SameLength(keys, m.keys); }
  }

  lemma {:induction false} SameLength(a: seq<string>, b: seq<string>)
    requires Distinct(a) && Distinct(b) && forall k :: k in a <==> k in b
    ensures |a| == |b|
  {
    Cardinality(a);
    Cardinality(b);
    assert (set k | k in a) == set k | k in b;
  }

  lemma {:induction false} AnswerAccepted(id: string, q: Question, a: Answer, pe: real, se: real)
    requires Answerable(q)
    ensures ValidateAnswer(id, q, a, pe, se).Ok? <==> Fits(q, a, pe, se)
  {
    hide ValidateDistribution, IsDistribution, Sum, Mean;
    if q.ChoiceQuestion? && a.ChoiceAnswer? && a.probabilities.Some? {
      DistributionAccepted(a.probabilities.value, q.options, id, pe);
      if IsDistribution(a.probabilities.value, q.options, pe) {
        DistributionKeys(a.probabilities.value, q.options, pe);
      }
    }
    if q.ScoreQuestion? && a.ScoreAnswer? && a.probabilities.Some? {
      LevelKeysDistinct(q.levels);
      DistributionAccepted(a.probabilities.value, LevelKeys(q.levels), id, pe);
    }
  }

  lemma {:induction false} DistributionKeys(m: IndexMap<Float>, keys: seq<string>, e: real)
    requires IsDistribution(m, keys, e)
    ensures forall k :: k in m.keys <==> k in keys
  {
    assert forall k :: k in m.keys <==> k in m.at;
  }

  /** The answers are accepted exactly when the declared decimals are in range,
      there is one answer for each question and no other, and each answer fits
      its question; a supplied distribution then has exactly the question's keys. */
  lemma {:induction false} AcceptedExactly(questions: IndexMap<Question>, answers: IndexMap<Answer>, rounding: Option<Rounding>)
    requires AllAnswerable(questions)
    ensures
      var r := if rounding.Some? then rounding.value else Rounding(None, None);
      ValidateAnswers(questions, answers, rounding).Ok? <==>
        && RoundingError(r.probabilityDecimals).Ok? && RoundingError(r.scoreDecimals).Ok?
        && (forall id :: id in answers.at <==> id in questions.at)
        && (forall id :: id in questions.at && id in answers.at ==>
              Fits(questions.at[id], answers.at[id], RoundingError(r.probabilityDecimals).value,
                   RoundingError(r.scoreDecimals).value))
  {
    hide Fits, ValidateAnswer, RoundingError, AnswersFrom;
    var r := if rounding.Some? then rounding.value else Rounding(None, None);
    var pe, se := RoundingError(r.probabilityDecimals), RoundingError(r.scoreDecimals);
    assert forall id :: id in answers.keys <==> id in answers.at;
    assert forall id :: id in questions.keys <==> id in questions.at;
    if |answers.keys| == |questions.keys| && forall id :: id in questions.keys ==> id in answers.at {
      SameKeys(questions.keys, answers.keys);
      if pe.Ok? && se.Ok? {
        FirstRejection(questions, answers, 0, pe.value, se.value);
        forall id | id in questions.at && id in answers.at
          ensures ValidateAnswer(id, questions.at[id], answers.at[id], pe.value, se.value).Ok?
             <==> Fits(questions.at[id], answers.at[id], pe.value, se.value)
        {
          AnswerAccepted(id, questions.at[id], answers.at[id], pe.value, se.value);
        }
        assert forall k :: 0 <= k < |questions.keys| ==> questions.keys[k] in questions.at;
      }
    } else if forall id :: id in answers.at <==> id in questions.at {
      SameLength(questions.keys, answers.keys);
    }
  }

  // ----- Honest rounding

  /** A monotone rounding with at most this error that keeps whole numbers. */
  ghost predicate IsRounding(r: real -> real, e: real) {
    && (forall x, y :: x <= y ==> r(x) <= r(y))
    && (forall x :: x - e <= r(x) <= x + e)
    && (forall n :: r(Whole(n)) == Whole(n))
  }

  function Whole(n: int): real { n as real }

  function TenTo(decimals: nat): int { if decimals == 0 then 1 else 10 * TenTo(decimals - 1) }

  function HalfUp(decimals: nat): real -> real { x => RoundHalfUp(decimals, x) }

  function Scale(x: real, u: real): real { x * u }

  function RoundHalfUp(decimals: nat, x: real): real {
    Scale((Scale(x, Whole(TenTo(decimals))) + 0.5).Floor as real, TenthPower(decimals))
  }

  /** Rounding half up to some decimals is such a rounding, with the error the
      validation allows for that many decimals. */
  lemma {:induction false} HalfUpIsRounding(decimals: nat)
    requires decimals <= 15
    ensures IsRounding(HalfUp(decimals), RoundingError(Some(decimals)).value)
  {
    hide RoundHalfUp, TenthPower;
    var r := HalfUp(decimals);
    forall x, y | x <= y ensures r(x) <= r(y) { HalfUpMonotone(decimals, x, y); }
    forall x ensures x - 0.5 * TenthPower(decimals) <= r(x) <= x + 0.5 * TenthPower(decimals) {
      HalfUpClose(decimals, x);
    }
    forall n ensures r(Whole(n)) == Whole(n) { WholeIsExact(decimals, n); }
  }

  lemma {:induction false} HalfUpMonotone(decimals: nat, x: real, y: real)
    requires x <= y
    ensures RoundHalfUp(decimals, x) <= RoundHalfUp(decimals, y)
  {
    var u, t := TenthPower(decimals), Whole(TenTo(decimals));
    TenthPowerInverse(decimals);
    hide Scale;
    ScaleMonotone(x, y, t);
    ScaleMonotone((Scale(x, t) + 0.5).Floor as real, (Scale(y, t) + 0.5).Floor as real, u);
  }

  lemma {:induction false} HalfUpClose(decimals: nat, x: real)
    ensures x - 0.5 * TenthPower(decimals) <= RoundHalfUp(decimals, x) <= x + 0.5 * TenthPower(decimals)
  {
    var u, t := TenthPower(decimals), Whole(TenTo(decimals));
    TenthPowerInverse(decimals);
    hide Scale;
    var k := (Scale(x, t) + 0.5).Floor as real;
    ScaleMonotone(Scale(x, t) - 0.5, k, u);
    ScaleMonotone(k, Scale(x, t) + 0.5, u);
    ScaleBack(x, t, u, 0.5);
    ScaleBack(x, t, u, -0.5);
  }

  lemma {:induction false} WholeIsExact(decimals: nat, n: int)
    ensures RoundHalfUp(decimals, Whole(n)) == Whole(n)
  {
    var u, t := TenthPower(decimals), TenTo(decimals);
    TenthPowerInverse(decimals);
    WholeProduct(n, t);
    hide Scale;
    assert (Scale(Whole(n), Whole(t)) + 0.5).Floor == n * t;
    ScaleBack(Whole(n), Whole(t), u, 0.0);
  }

  lemma {:induction false} ScaleMonotone(x: real, y: real, u: real)
    requires x <= y && u > 0.0
    ensures Scale(x, u) <= Scale(y, u)
  {
  }

  lemma {:induction false} ScaleBack(x: real, t: real, u: real, h: real)
    requires Scale(t, u) == 1.0
    ensures Scale(Scale(x, t) + h, u) == x + h * u
  {
    assert (x * t) * u == x * (t * u);
  }

  lemma {:induction false} TenthPowerInverse(decimals: nat)
    ensures Scale(Whole(TenTo(decimals)), TenthPower(decimals)) == 1.0 && Whole(TenTo(decimals)) > 0.0
  {
    if decimals > 0 {
      TenthPowerInverse(decimals - 1);
      var t, u := Whole(TenTo(decimals - 1)), TenthPower(decimals - 1);
      assert Whole(TenTo(decimals)) == 10.0 * t && TenthPower(decimals) == u / 10.0;
      assert (10.0 * t) * (u / 10.0) == t * u;
    }
  }

  lemma {:induction false} WholeProduct(n: int, t: int)
    ensures Scale(Whole(n), Whole(t)) == Whole(n * t)
    decreases if n < 0 then -n else n
  {
    if n > 0 {
      WholeProduct(n - 1, t);
      assert n * t == (n - 1) * t + t;
    } else if n < 0 {
      WholeProduct(n + 1, t);
      assert n * t == (n + 1) * t - t;
    }
  }

  // ----- Honest answers are accepted

  /** The probabilities behind an answer: of each key, or of `true`. */
  datatype Truth = Weighted(p: string -> real) | Chance(of: real)

  ghost predicate IsTruth(p: string -> real, keys: seq<string>) {
    (forall k :: k in keys ==> p(k) >= 0.0) && Sum(keys, p) == 1.0
  }

  /** The rounded probability of each key, in any order. */
  ghost predicate Reports(m: IndexMap<Float>, keys: seq<string>, p: string -> real, r: real -> real) {
    (forall k :: k in m.at <==> k in keys) && forall k :: k in m.at ==> m.at[k] == Finite(r(p(k)))
  }

  /** The answer a provider gives that knows the truth and rounds it. */
  ghost predicate IsHonest(q: Question, a: Answer, t: Truth, rp: real -> real, rs: real -> real) {
    match q
    case ChoiceQuestion(options) =>
      && a.ChoiceAnswer? && t.Weighted? && IsTruth(t.p, options)
      && a.choice in options && (forall k :: k in options ==> t.p(k) <= t.p(a.choice))
      && (a.probabilities.Some? ==> Reports(a.probabilities.value, options, t.p, rp))
    case ScoreQuestion(levels) =>
      && a.ScoreAnswer? && t.Weighted? && IsTruth(t.p, LevelKeys(levels))
      && a.score == Finite(rs(Mean(LevelKeys(levels), t.p)))
      && (a.probabilities.Some? ==> Reports(a.probabilities.value, LevelKeys(levels), t.p, rp))
    case BooleanQuestion =>
      && a.BooleanAnswer? && t.Chance? && 0.0 <= t.of <= 1.0 && a.probability == Finite(rp(t.of))
  }

  lemma {:induction false} SumWithout(keys: seq<string>, i: nat, f: string -> real)
    requires i < |keys|
    ensures Sum(keys, f) == Sum(keys[..i] + keys[i + 1..], f) + f(keys[i])
  {
    var n := |keys| - 1;
    if i == n {
      assert keys[..i] + keys[i + 1..] == keys[..n];
    } else {
      SumWithout(keys[..n], i, f);
      var w := keys[..i] + keys[i + 1..];
      assert w[..n - 1] == keys[..n][..i] + keys[..n][i + 1..];
      assert w[n - 1] == keys[n];
    }
  }

  lemma {:induction false} InWithout(keys: seq<string>, i: nat)
    requires Distinct(keys) && i < |keys|
    ensures Distinct(keys[..i] + keys[i + 1..])
    ensures forall k :: k in keys[..i] + keys[i + 1..] <==> k in keys && k != keys[i]
  {
    var w := keys[..i] + keys[i + 1..];
    assert forall j :: 0 <= j < |w| ==> w[j] == keys[if j < i then j else j + 1];
    forall k | k in keys && k != keys[i] ensures k in w {
      var j :| 0 <= j < |keys| && keys[j] == k;
      assert w[if j < i then j else j - 1] == k;
    }
  }

  /** The order of a map does not change the sum of its values. */
  lemma {:induction false} SumPermutes(a: seq<string>, b: seq<string>, f: string -> real)
    requires Distinct(a) && Distinct(b) && forall k :: k in a <==> k in b
    ensures Sum(a, f) == Sum(b, f)
    decreases |a|
  {
    SameLength(a, b);
    if a != [] {
      var n := |a| - 1;
      assert a[n] in b;
      var i :| 0 <= i < |b| && b[i] == a[n];
      SumWithout(b, i, f);
      SumStep(a, f);
      hide Sum;
      InWithout(a, n);
      InWithout(b, i);
      var c := b[..i] + b[i + 1..];
      assert a[..n] + a[n + 1..] == a[..n];
      forall k ensures k in a[..n] <==> k in c {
        assert k in a <==> k in b;
      }
      SumPermutes(a[..n], c, f);
    }
  }

  function Spread(n: nat, e: real): real { n as real * e }

  lemma {:induction false} SumClose(keys: seq<string>, f: string -> real, g: string -> real, e: real)
    requires forall k :: k in keys ==> f(k) - e <= g(k) <= f(k) + e
    ensures Sum(keys, f) - Spread(|keys|, e) <= Sum(keys, g) <= Sum(keys, f) + Spread(|keys|, e)
  {
    if keys != [] {
      hide Sum, Spread;
      var n := |keys| - 1;
      assert keys[n] in keys && forall k :: k in keys[..n] ==> k in keys;
      SumClose(keys[..n], f, g, e);
      SumStep(keys, f);
      SumStep(keys, g);
      Times(n, e);
      Widen(Sum(keys[..n], f), Sum(keys[..n], g), Spread(n, e), f(keys[n]), g(keys[n]), e);
    }
  }

  lemma {:induction false} SumStep(keys: seq<string>, f: string -> real)
    requires keys != []
    ensures Sum(keys, f) == Sum(keys[..|keys| - 1], f) + f(keys[|keys| - 1])
  {
  }

  lemma {:induction false} Widen(a: real, b: real, d: real, x: real, y: real, e: real)
    requires a - d <= b <= a + d && x - e <= y <= x + e
    ensures a + x - (d + e) <= b + y <= a + x + (d + e)
  {
  }

  lemma {:induction false} Times(n: nat, e: real)
    ensures Spread(n + 1, e) == Spread(n, e) + e
  {
    assert (n + 1) as real == n as real + 1.0;
  }

  lemma {:induction false} MeanClose(keys: seq<string>, f: string -> real, g: string -> real, e: real)
    requires forall k :: k in keys ==> f(k) - e <= g(k) <= f(k) + e
    ensures Mean(keys, f) - IndexSum(|keys|, e) <= Mean(keys, g) <= Mean(keys, f) + IndexSum(|keys|, e)
  {
    hide Mean, IndexSum;
    if keys == [] {
      NoMean(f, e);
      NoMean(g, e);
    } else {
      var n := |keys| - 1;
      assert keys[n] in keys && forall k :: k in keys[..n] ==> k in keys;
      assert |keys[..n]| == n;
      MeanClose(keys[..n], f, g, e);
      var w := n as real;
      MeanStep(keys, f, w);
      MeanStep(keys, g, w);
      IndexStep(n, e, w);
      WidenWeighted(Mean(keys[..n], f), Mean(keys[..n], g), IndexSum(n, e), w, f(keys[n]), g(keys[n]), e);
    }
  }

  lemma {:induction false} WidenWeighted(a: real, b: real, d: real, w: real, x: real, y: real, e: real)
    requires w >= 0.0 && a - d <= b <= a + d && x - e <= y <= x + e
    ensures a + w * x - (d + w * e) <= b + w * y <= a + w * x + (d + w * e)
  {
    assert w * (y - x + e) >= 0.0 && w * (x + e - y) >= 0.0;
    assert w * (y - x + e) == w * y - w * x + w * e;
    assert w * (x + e - y) == w * x + w * e - w * y;
  }

  lemma {:induction false} NoMean(f: string -> real, e: real)
    ensures Mean([], f) == 0.0 && IndexSum(0, e) == 0.0
  {
  }

  lemma {:induction false} MeanStep(keys: seq<string>, f: string -> real, w: real)
    requires keys != [] && w == (|keys| - 1) as real
    ensures Mean(keys, f) == Mean(keys[..|keys| - 1], f) + w * f(keys[|keys| - 1])
  {
  }

  lemma {:induction false} IndexStep(n: nat, e: real, w: real)
    requires w == n as real
    ensures IndexSum(n + 1, e) == IndexSum(n, e) + w * e
  {
  }

  lemma {:induction false} MeanInRange(keys: seq<string>, f: string -> real)
    requires forall k :: k in keys ==> f(k) >= 0.0
    ensures 0.0 <= Sum(keys, f) && 0.0 <= Mean(keys, f)
    ensures keys != [] ==> Mean(keys, f) <= (|keys| - 1) as real * Sum(keys, f)
    ensures forall k :: k in keys ==> f(k) <= Sum(keys, f)
  {
    if keys == [] {
      NoMean(f, 0.0);
    } else {
      hide Sum, Mean;
      var n := |keys| - 1;
      var w, x, s := n as real, f(keys[n]), Sum(keys[..n], f);
      MeanInRange(keys[..n], f);
      assert keys[n] in keys && forall k :: k in keys ==> k in keys[..n] || k == keys[n];
      SumStep(keys, f);
      MeanStep(keys, f, w);
      if n == 0 { NoMean(f, 0.0); assert keys[..n] == []; } else { assert w - 1.0 == (n - 1) as real; }
      MeanBound(w, s, x, Mean(keys[..n], f));
    }
  }

  lemma {:induction false} MeanBound(w: real, s: real, x: real, mean: real)
    requires w >= 0.0 && s >= 0.0 && x >= 0.0 && 0.0 <= mean && (mean <= (w - 1.0) * s || (mean == 0.0 && w == 0.0))
    ensures 0.0 <= mean + w * x <= w * (s + x)
  {
    assert w * (s + x) == w * s + w * x;
    assert (w - 1.0) * s == w * s - s;
    assert w * x >= 0.0;
  }

  lemma {:induction false} HonestDistribution(m: IndexMap<Float>, keys: seq<string>, p: string -> real, r: real -> real, e: real)
    requires Distinct(keys) && IsTruth(p, keys) && Reports(m, keys, p, r) && IsRounding(r, e)
    ensures IsDistribution(m, keys, e)
    ensures forall k :: k in keys ==> Weights(m)(k) == r(p(k))
  {
    MeanInRange(keys, p);
    forall k | k in m.at ensures IsProbability(m.at[k]) {
      assert r(Whole(0)) == 0.0 && r(Whole(1)) == 1.0;
      assert r(Whole(0)) <= r(p(k)) <= r(Whole(1));
    }
    assert forall k :: k in m.keys <==> k in m.at;
    SumPermutes(m.keys, keys, Weights(m));
    SumClose(keys, p, Weights(m), e);
  }

  lemma {:induction false} HonestFits(q: Question, a: Answer, t: Truth, rp: real -> real, pe: real, rs: real -> real, se: real)
    requires Answerable(q) && IsHonest(q, a, t, rp, rs) && IsRounding(rp, pe) && IsRounding(rs, se)
    ensures Fits(q, a, pe, se)
  {
    hide IsDistribution, Sum, Mean, Reports, LevelKeys;
    match q
    case ChoiceQuestion(options) =>
      if a.probabilities.Some? { HonestDistribution(a.probabilities.value, options, t.p, rp, pe); }
    case ScoreQuestion(levels) =>
      var keys := LevelKeys(levels);
      MeanInRange(keys, t.p);
      assert rs(Whole(0)) <= a.score.value <= rs(Whole(levels - 1));
      assert rs(Whole(0)) == Whole(0) && rs(Whole(levels - 1)) == Whole(levels - 1);
      if a.probabilities.Some? {
        LevelKeysDistinct(levels);
        HonestDistribution(a.probabilities.value, keys, t.p, rp, pe);
        MeanClose(keys, t.p, Weights(a.probabilities.value), pe);
      }
    case BooleanQuestion =>
      assert rp(Whole(0)) <= rp(t.of) <= rp(Whole(1));
      assert rp(Whole(0)) == Whole(0) && rp(Whole(1)) == Whole(1);
  }

  /** Honest rounding to the declared decimals is never rejected. */
  lemma {:induction false} HonestIsAccepted(questions: IndexMap<Question>, answers: IndexMap<Answer>, r: Rounding,
                                            truths: map<string, Truth>, rp: real -> real, rs: real -> real)
    requires AllAnswerable(questions)
    requires RoundingError(r.probabilityDecimals).Ok? && IsRounding(rp, RoundingError(r.probabilityDecimals).value)
    requires RoundingError(r.scoreDecimals).Ok? && IsRounding(rs, RoundingError(r.scoreDecimals).value)
    requires forall id :: id in answers.at <==> id in questions.at
    requires forall id :: id in questions.at ==>
               id in truths && IsHonest(questions.at[id], answers.at[id], truths[id], rp, rs)
    ensures ValidateAnswers(questions, answers, Some(r)).Ok?
  {
    hide Fits, IsHonest, RoundingError, ValidateAnswers;
    AcceptedExactly(questions, answers, Some(r));
    forall id | id in questions.at && id in answers.at
      ensures Fits(questions.at[id], answers.at[id], RoundingError(r.probabilityDecimals).value,
                   RoundingError(r.scoreDecimals).value)
    {
      HonestFits(questions.at[id], answers.at[id], truths[id], rp, RoundingError(r.probabilityDecimals).value,
                 rs, RoundingError(r.scoreDecimals).value);
    }
  }
}
