/** How far accepted answers may be from true ones, and what a rejection says. */
module DecisionBounds {
  import opened Wrappers
  import opened Decision

  // ----- The error allowed for declared decimals

  /** The error is half a unit of the last decimal; at most fifteen are allowed. */
  lemma {:induction false} ErrorIsHalfUnit(decimals: Option<nat>)
    ensures RoundingError(decimals).Ok? <==> (decimals.Some? ==> decimals.value <= 15)
    ensures RoundingError(decimals).Err? ==> RoundingError(decimals).error == BadDecimals
    ensures decimals.None? ==> RoundingError(decimals) == Ok(0.0)
    ensures decimals.Some? && decimals.value <= 15 ==>
              RoundingError(decimals).value * Whole(TenTo(decimals.value)) == 0.5
  {
    hide TenthPower, TenTo, Whole;
    if decimals.Some? {
      TenthPowerInverse(decimals.value);
      HalfOf(TenthPower(decimals.value), Whole(TenTo(decimals.value)));
    }
  }

  lemma {:induction false} HalfOf(u: real, t: real)
    requires Scale(t, u) == 1.0
    ensures (0.5 * u) * t == 0.5
  {
    assert (0.5 * u) * t == 0.5 * (t * u);
  }

  /** No smaller error would do for rounding half up to that many decimals. */
  lemma {:induction false} NoSmallerError(decimals: nat, e: real)
    requires decimals <= 15 && IsRounding(HalfUp(decimals), e)
    ensures e >= RoundingError(Some(decimals)).value
  {
    var u, t := TenthPower(decimals), Whole(TenTo(decimals));
    var x := 0.5 * u;
    TenthPowerInverse(decimals);
    HalfOf(u, t);
    assert Scale(x, t) == 0.5;
    assert (0.5 + 0.5).Floor == 1;
    assert HalfUp(decimals)(x) == RoundHalfUp(decimals, x) == Scale(1.0, u) == u;
    assert HalfUp(decimals)(x) <= x + e;
  }

  /** The allowed error of a mean: every level's index times the error. */
  lemma {:induction false} IndexSumIs(n: nat, e: real)
    ensures 2.0 * IndexSum(n, e) == (n * (n - 1)) as real * e
  {
    if n > 0 {
      IndexSumIs(n - 1, e);
      assert n * (n - 1) == (n - 1) * (n - 2) + 2 * (n - 1);
      assert (n * (n - 1)) as real == ((n - 1) * (n - 2)) as real + 2.0 * (n - 1) as real;
    }
  }

  // ----- A true distribution nearby

  /** Some true distribution differs from the reported one by at most `d` at every key. */
  ghost predicate IsNearTruth(m: IndexMap<Float>, keys: seq<string>, d: real) {
    exists p: string -> real :: IsTruth(p, keys) && AreClose(p, Weights(m), keys, d)
  }

  ghost predicate AreClose(p: string -> real, q: string -> real, keys: seq<string>, d: real) {
    forall k :: k in keys ==> q(k) - d <= p(k) <= q(k) + d
  }

  function Over(x: real, s: real): real
    requires s > 0.0
  {
    x / s
  }

  function Scaled(f: string -> real, s: real): string -> real
    requires s > 0.0
  {
    k => Over(f(k), s)
  }

  lemma {:induction false} OverAdds(x: real, y: real, s: real)
    requires s > 0.0
    ensures Over(x + y, s) == Over(x, s) + Over(y, s) && Over(s, s) == 1.0
  {
  }

  lemma {:induction false} SumScaled(keys: seq<string>, f: string -> real, s: real)
    requires s > 0.0
    ensures Sum(keys, Scaled(f, s)) == Over(Sum(keys, f), s)
  {
    if keys == [] {
      assert Over(0.0, s) == 0.0;
    } else {
      SumScaled(keys[..|keys| - 1], f, s);
      SumStep(keys, f);
      SumStep(keys, Scaled(f, s));
      hide Sum, Over;
      OverAdds(Sum(keys[..|keys| - 1], f), f(keys[|keys| - 1]), s);
    }
  }

  lemma {:induction false} OverIsClose(x: real, s: real)
    requires s > 0.0 && 0.0 <= x <= s
    ensures 0.0 <= Over(x, s) && x - Abs(s - 1.0) <= Over(x, s) <= x + Abs(s - 1.0)
  {
    var q := Over(x, s);
    OverTimes(x, s);
    Shrinks(q, 1.0 - s);
    Distributes(q, s);
    hide Over;
  }

  lemma {:induction false} OverTimes(x: real, s: real)
    requires s > 0.0 && 0.0 <= x <= s
    ensures 0.0 <= Over(x, s) <= 1.0 && Scale(Over(x, s), s) == x
  {
  }

  lemma {:induction false} Shrinks(q: real, d: real)
    requires 0.0 <= q <= 1.0
    ensures if d >= 0.0 then 0.0 <= Scale(q, d) <= d else d <= Scale(q, d) <= 0.0
  {
  }

  lemma {:induction false} Distributes(q: real, s: real)
    ensures Scale(q, 1.0 - s) == q - Scale(q, s)
  {
  }

  lemma {:induction false} SumUniform(keys: seq<string>, u: real)
    ensures Sum(keys, k => u) == Spread(|keys|, u)
  {
    var f: string -> real := k => u;
    if keys == [] {
      assert Spread(0, u) == 0.0;
    } else {
      SumUniform(keys[..|keys| - 1], u);
      SumStep(keys, f);
      Times(|keys| - 1, u);
    }
  }

  /** Weights that are not negative are as near to a true distribution as their
      sum is to one. */
  lemma {:induction false} NearTruth(keys: seq<string>, f: string -> real) returns (p: string -> real)
    requires keys != [] && forall k :: k in keys ==> f(k) >= 0.0
    ensures IsTruth(p, keys) && AreClose(p, f, keys, Abs(Sum(keys, f) - 1.0))
  {
    var s := Sum(keys, f);
    MeanInRange(keys, f);
    if s > 0.0 {
      p := Scaled(f, s);
      SumScaled(keys, f, s);
      OverAdds(0.0, s, s);
      forall k | k in keys ensures p(k) >= 0.0 && f(k) - Abs(s - 1.0) <= p(k) <= f(k) + Abs(s - 1.0) { OverIsClose(f(k), s); }
    } else {
      var u := 1.0 / |keys| as real;
      p := k => u;
      SumUniform(keys, u);
      UniformIsTrue(|keys|, u);
    }
  }

  lemma {:induction false} UniformIsTrue(n: nat, u: real)
    requires n > 0 && u == 1.0 / n as real
    ensures Spread(n, u) == 1.0 && 0.0 <= u <= 1.0
  {
  }

  lemma {:induction false} DistributionIsNear(m: IndexMap<Float>, keys: seq<string>, e: real)
    requires keys != [] && Distinct(keys) && IsDistribution(m, keys, e)
    ensures IsNearTruth(m, keys, 0.000001 + Spread(|keys|, e))
  {
    var f := Weights(m);
    assert forall k :: k in m.keys <==> k in m.at;
    SumPermutes(m.keys, keys, f);
    hide Sum, Weights, IsTruth;
    assert forall k :: k in keys ==> f(k) >= 0.0 by { WeightsAreProbabilities(m, keys, e); }
    var p := NearTruth(keys, f);
    assert AreClose(p, f, keys, 0.000001 + Spread(|keys|, e));
  }

  lemma {:induction false} WeightsAreProbabilities(m: IndexMap<Float>, keys: seq<string>, e: real)
    requires IsDistribution(m, keys, e)
    ensures forall k :: k in keys ==> 0.0 <= Weights(m)(k) <= 1.0
  {
  }

  /** What every accepted answer meets: a supplied distribution is near a true
      one, its highest probability is the choice's and its mean the score's, but
      for the declared rounding and a millionth. */
  ghost predicate IsNear(q: Question, a: Answer, pe: real, se: real)
    requires Answerable(q)
  {
    match q
    case ChoiceQuestion(options) =>
      && a.ChoiceAnswer? && a.choice in options
      && (a.probabilities.Some? ==>
            && IsNearTruth(a.probabilities.value, options, 0.000001 + Spread(|options|, pe))
            && forall k :: k in options ==> Weights(a.probabilities.value)(k) <= Weights(a.probabilities.value)(a.choice) + 0.000001)
    case ScoreQuestion(levels) =>
      && a.ScoreAnswer? && a.score.Finite? && 0.0 <= a.score.value <= (levels - 1) as real
      && (a.probabilities.Some? ==>
            && IsNearTruth(a.probabilities.value, LevelKeys(levels), 0.000001 + Spread(levels, pe))
            && var d := 0.000001 + ((levels * (levels - 1)) as real * pe) / 2.0 + se;
               a.score.value - d <= Mean(LevelKeys(levels), Weights(a.probabilities.value)) <= a.score.value + d)
    case BooleanQuestion => a.BooleanAnswer? && a.probability.Finite? && 0.0 <= a.probability.value <= 1.0
  }

  /** Accepted answers are near true ones. */
  lemma {:induction false} AcceptedIsNear(questions: IndexMap<Question>, answers: IndexMap<Answer>, rounding: Option<Rounding>, id: string)
    requires AllAnswerable(questions) && ValidateAnswers(questions, answers, rounding).Ok? && id in questions.at
    ensures var r := if rounding.Some? then rounding.value else Rounding(None, None);
            var pe, se := RoundingError(r.probabilityDecimals), RoundingError(r.scoreDecimals);
            pe.Ok? && se.Ok? && id in answers.at && IsNear(questions.at[id], answers.at[id], pe.value, se.value)
  {
    AcceptedExactly(questions, answers, rounding);
    var r := if rounding.Some? then rounding.value else Rounding(None, None);
    hide ValidateAnswers, Fits, IsNear, RoundingError;
    FitsIsNear(questions.at[id], answers.at[id], RoundingError(r.probabilityDecimals).value, RoundingError(r.scoreDecimals).value);
  }

  lemma {:induction false} FitsIsNear(q: Question, a: Answer, pe: real, se: real)
    requires Answerable(q) && Fits(q, a, pe, se)
    ensures IsNear(q, a, pe, se)
  {
    hide IsDistribution, IsNearTruth, Sum, Mean, Weights;
    match q
    case ChoiceQuestion(options) =>
      if a.probabilities.Some? { DistributionIsNear(a.probabilities.value, options, pe); }
    case ScoreQuestion(levels) =>
      if a.probabilities.Some? {
        LevelKeysDistinct(levels);
        DistributionIsNear(a.probabilities.value, LevelKeys(levels), pe);
        IndexSumIs(levels, pe);
        hide IndexSum;
        assert IndexSum(levels, pe) == ((levels * (levels - 1)) as real * pe) / 2.0;
        var m := a.probabilities.value;
        assert |LevelKeys(levels)| == levels;
        assert IsNearTruth(m, LevelKeys(levels), 0.000001 + Spread(levels, pe));
        assert Abs(Mean(LevelKeys(levels), Weights(m)) - a.score.value) <= TOLERANCE + IndexSum(levels, pe) + se;
        assert Mean(LevelKeys(levels), Weights(m)) <= a.score.value + (0.000001 + ((levels * (levels - 1)) as real * pe) / 2.0 + se);
        assert a.score.value - (0.000001 + ((levels * (levels - 1)) as real * pe) / 2.0 + se) <= Mean(LevelKeys(levels), Weights(m));
      }
    case BooleanQuestion =>
  }

  // ----- What a rejection says

  /** Why this answer to this question is rejected. */
  ghost predicate Explains(id: string, q: Question, a: Answer, pe: real, se: real, e: Error)
    requires Answerable(q)
  {
    match e
    case WrongType(k) =>
      k == id && !(q.ChoiceQuestion? && a.ChoiceAnswer?) && !(q.ScoreQuestion? && a.ScoreAnswer?) && !(q.BooleanQuestion? && a.BooleanAnswer?)
    case UnknownOption(k) => k == id && q.ChoiceQuestion? && a.ChoiceAnswer? && a.choice !in q.options
    case ScoreOutOfRange(k) =>
      k == id && q.ScoreQuestion? && a.ScoreAnswer? &&
      !(a.score.Finite? && 0.0 <= a.score.value <= (q.levels - 1) as real)
    case NotProbability(k) => k == id && q.BooleanQuestion? && a.BooleanAnswer? && !IsProbability(a.probability)
    case IncompleteDistribution(k) =>
      k == id && Supplied(a).Some? &&
      ((exists key :: (key in KeysOf(q)) != (key in Supplied(a).value.at))
       || exists key :: key in Supplied(a).value.at && !IsProbability(Supplied(a).value.at[key]))
    case BadSum(k) =>
      k == id && Supplied(a).Some? && SameKeySet(q, Supplied(a).value) &&
      Abs(Sum(KeysOf(q), Weights(Supplied(a).value)) - 1.0) > 0.000001 + |KeysOf(q)| as real * pe
    case NotHighest(k) =>
      k == id && q.ChoiceQuestion? && a.ChoiceAnswer? && a.probabilities.Some? &&
      exists key :: key in q.options && Weights(a.probabilities.value)(key) > Weights(a.probabilities.value)(a.choice) + 0.000001
    case BadMean(k) =>
      k == id && q.ScoreQuestion? && a.ScoreAnswer? && a.probabilities.Some? && a.score.Finite? &&
      Abs(Mean(LevelKeys(q.levels), Weights(a.probabilities.value)) - a.score.value)
      > 0.000001 + ((q.levels * (q.levels - 1)) as real * pe) / 2.0 + se
    case _ => false
  }

  function KeysOf(q: Question): seq<string> {
    match q
    case ChoiceQuestion(options) => options
    case ScoreQuestion(levels) => LevelKeys(levels)
    case BooleanQuestion => []
  }

  function Supplied(a: Answer): Option<IndexMap<Float>> {
    match a
    case ChoiceAnswer(_, probabilities) => probabilities
    case ScoreAnswer(_, probabilities) => probabilities
    case BooleanAnswer(_) => None
  }

  ghost predicate SameKeySet(q: Question, m: IndexMap<Float>) { forall key :: key in KeysOf(q) <==> key in m.at }

  lemma {:induction false} DistributionRejected(m: IndexMap<Float>, keys: seq<string>, id: string, e: real)
    requires Distinct(keys) && ValidateDistribution(m, keys, id, e).Err?
    ensures var error := ValidateDistribution(m, keys, id, e).error;
            || (error == IncompleteDistribution(id) &&
                ((exists key :: (key in keys) != (key in m.at)) || exists key :: key in m.at && !IsProbability(m.at[key])))
            || (error == BadSum(id) && (forall key :: key in keys <==> key in m.at) &&
                Abs(Sum(keys, Weights(m)) - 1.0) > 0.000001 + |keys| as real * e)
  {
    assert forall k :: k in m.keys <==> k in m.at;
    if |m.keys| == |keys| && forall k :: k in keys ==> k in m.at {
      SameKeys(keys, m.keys);
      SumPermutes(m.keys, keys, Weights(m));
    } else if forall key :: key in keys <==> key in m.at {
      SameLength(keys, m.keys);
    }
    hide Sum, Weights;
  }

  lemma {:induction false} AnswerRejected(id: string, q: Question, a: Answer, pe: real, se: real)
    requires Answerable(q) && ValidateAnswer(id, q, a, pe, se).Err?
    ensures Explains(id, q, a, pe, se, ValidateAnswer(id, q, a, pe, se).error)
  {
    hide ValidateDistribution, Sum, Mean, Weights;
    match (q, a)
    case (ChoiceQuestion(options), ChoiceAnswer(choice, probabilities)) =>
      if choice in options && probabilities.Some? {
        var m := probabilities.value;
        var checked := ValidateDistribution(m, options, id, pe);
        if checked.Err? {
          DistributionRejected(m, options, id, pe);
        } else {
          DistributionAccepted(m, options, id, pe);
          var key :| key in m.keys && Weights(m)(key) > Weights(m)(choice) + TOLERANCE;
          assert key in options by { DistributionKeys(m, options, pe); }
        }
      }
    case (ScoreQuestion(levels), ScoreAnswer(score, probabilities)) =>
      if probabilities.Some? {
        var m := probabilities.value;
        LevelKeysDistinct(levels);
        IndexSumIs(levels, pe);
        if ValidateDistribution(m, LevelKeys(levels), id, pe).Err? { DistributionRejected(m, LevelKeys(levels), id, pe); }
      }
    case _ =>
  }

  /** A rejection names its reason: decimals out of range, other ids than the
      questions', or the first question, in order, whose answer does not fit. */
  ghost predicate ExplainsAll(questions: IndexMap<Question>, answers: IndexMap<Answer>, r: Rounding, e: Error)
    requires AllAnswerable(questions)
  {
    var pe, se := RoundingError(r.probabilityDecimals), RoundingError(r.scoreDecimals);
    if pe.Err? || se.Err? then e == BadDecimals
    else if exists id :: (id in questions.at) != (id in answers.at) then e == WrongAnswerSet
    else exists i :: 0 <= i < |questions.keys| && FirstMisfit(questions, answers, i, pe.value, se.value, e)
  }

  ghost predicate FirstMisfit(questions: IndexMap<Question>, answers: IndexMap<Answer>, i: nat, pe: real, se: real, e: Error)
    requires AllAnswerable(questions) && i < |questions.keys|
  {
    && (forall k :: 0 <= k <= i ==> questions.keys[k] in questions.at && questions.keys[k] in answers.at)
    && (forall k :: 0 <= k < i ==> Fits(questions.at[questions.keys[k]], answers.at[questions.keys[k]], pe, se))
    && Explains(questions.keys[i], questions.at[questions.keys[i]], answers.at[questions.keys[i]], pe, se, e)
  }

  lemma {:induction false} FirstMisfitFrom(questions: IndexMap<Question>, answers: IndexMap<Answer>, i: nat, pe: real, se: real)
    returns (k: nat)
    requires AllAnswerable(questions) && i <= |questions.keys| && (forall id :: id in questions.keys ==> id in answers.at)
    requires forall j :: 0 <= j < i ==> Fits(questions.at[questions.keys[j]], answers.at[questions.keys[j]], pe, se)
    requires AnswersFrom(questions, answers, i, pe, se).Err?
    ensures k < |questions.keys| && FirstMisfit(questions, answers, k, pe, se, AnswersFrom(questions, answers, i, pe, se).error)
    decreases |questions.keys| - i
  {
    hide Fits, ValidateAnswer, Explains;
    var id := questions.keys[i];
    if ValidateAnswer(id, questions.at[id], answers.at[id], pe, se).Err? {
      AnswerRejected(id, questions.at[id], answers.at[id], pe, se);
      k := i;
    } else {
      AnswerAccepted(id, questions.at[id], answers.at[id], pe, se);
      k := FirstMisfitFrom(questions, answers, i + 1, pe, se);
    }
  }

  lemma {:induction false} RejectionSays(questions: IndexMap<Question>, answers: IndexMap<Answer>, rounding: Option<Rounding>)
    requires AllAnswerable(questions) && ValidateAnswers(questions, answers, rounding).Err?
    ensures var r := if rounding.Some? then rounding.value else Rounding(None, None);
            ExplainsAll(questions, answers, r, ValidateAnswers(questions, answers, rounding).error)
  {
    var r := if rounding.Some? then rounding.value else Rounding(None, None);
    var pe, se := RoundingError(r.probabilityDecimals), RoundingError(r.scoreDecimals);
    ErrorIsHalfUnit(r.probabilityDecimals);
    ErrorIsHalfUnit(r.scoreDecimals);
    hide RoundingError, AnswersFrom, FirstMisfit;
    assert forall id :: id in answers.keys <==> id in answers.at;
    assert forall id :: id in questions.keys <==> id in questions.at;
    if pe.Ok? && se.Ok? {
      if |answers.keys| == |questions.keys| && forall id :: id in questions.keys ==> id in answers.at {
        SameKeys(questions.keys, answers.keys);
        var k := FirstMisfitFrom(questions, answers, 0, pe.value, se.value);
      } else if forall id :: id in answers.at <==> id in questions.at {
        SameLength(questions.keys, answers.keys);
      }
    }
  }
}
