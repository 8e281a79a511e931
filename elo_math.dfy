/**
 * The arithmetic shared by the rating program and the prediction program:
 * min/max normalisation of a raw score, the logistic Elo expectation and the
 * Elo update step. Ratings are reals; float64 rounding is not modelled.
 */
module EloMath {

  /**
   * The laws of x |-> 10^x that the Elo arguments rely on. The source calls
   * math.Pow(10, x); the model receives that function as a value of type Pow10.
   */
  ghost predicate Pow10Laws(pow: real -> real)
  {
    && (forall x :: pow(x) > 0.0)
    && pow(0.0) == 1.0
    && (forall x, y :: x + y == 0.0 ==> pow(x) * pow(y) == 1.0)
    && (forall x, y :: x < y ==> pow(x) < pow(y))
  }

  /** A function that obeys the same laws, which shows that the laws are consistent. */
  function LawfulStandIn(x: real): real
  {
    if x >= 0.0 then 1.0 + x else 1.0 / (1.0 - x)
  }

  lemma StandInReciprocal(x: real)
    ensures LawfulStandIn(x) * LawfulStandIn(-x) == 1.0
  {
  }

  lemma StandInIncreasing(x: real, y: real)
    requires x < y
    ensures LawfulStandIn(x) < LawfulStandIn(y)
  {
  }

  lemma StandInPositive(x: real)
    ensures LawfulStandIn(x) > 0.0
  {
    if x < 0.0 {
      assert 1.0 - x > 0.0;
    }
  }

  lemma StandInAllPositive()
    ensures var f: real -> real := LawfulStandIn; forall x :: f(x) > 0.0
  {
    forall x: real ensures LawfulStandIn(x) > 0.0 {
      StandInPositive(x);
    }
  }

  lemma StandInAllReciprocal()
    ensures var f: real -> real := LawfulStandIn; forall x, y :: x + y == 0.0 ==> f(x) * f(y) == 1.0
  {
    forall x: real, y: real | x + y == 0.0 ensures LawfulStandIn(x) * LawfulStandIn(y) == 1.0 {
      StandInReciprocal(x);
    }
  }

  lemma StandInAllIncreasing()
    ensures var f: real -> real := LawfulStandIn; forall x, y :: x < y ==> f(x) < f(y)
  {
    forall x: real, y: real | x < y ensures LawfulStandIn(x) < LawfulStandIn(y) {
      StandInIncreasing(x, y);
    }
  }

  lemma StandInIsLawful()
    ensures Pow10Laws(LawfulStandIn)
  {
    StandInAllPositive();
    StandInAllReciprocal();
    StandInAllIncreasing();
  }

  type Pow10 = pow: real -> real | Pow10Laws(pow) witness (StandInIsLawful(); LawfulStandIn)

  /**
   * normalizeScore(max, min, score): the position of the score between the
   * population minimum and maximum. The source divides by max - min, so a
   * population with max == min has no defined value.
   */
  function NormalizeScore(maxScore: real, minScore: real, score: real): (r: real)
    requires maxScore != minScore
    ensures score == minScore ==> r == 0.0
    ensures score == maxScore ==> r == 1.0
    ensures minScore < maxScore && minScore <= score <= maxScore ==> 0.0 <= r <= 1.0
  {
    QuotientUnit(score - minScore, maxScore - minScore);
    (score - minScore) / (maxScore - minScore)
  }

  /** With max above min, a higher score never normalises lower. */
  lemma NormalizeMonotone(maxScore: real, minScore: real, s: real, t: real)
    requires minScore < maxScore
    requires s <= t
    ensures NormalizeScore(maxScore, minScore, s) <= NormalizeScore(maxScore, minScore, t)
  {
    QuotientMonotone(s - minScore, t - minScore, maxScore - minScore);
  }

  /** With max above min, a strictly higher score normalises strictly higher. */
  lemma NormalizeStrictlyMonotone(maxScore: real, minScore: real, s: real, t: real)
    requires minScore < maxScore
    requires s < t
    ensures NormalizeScore(maxScore, minScore, s) < NormalizeScore(maxScore, minScore, t)
  {
    QuotientStrictlyMonotone(s - minScore, t - minScore, maxScore - minScore);
  }

  /**
   * calcExpectedElo(opponent, team): the logistic expectation
   * 1 / (1 + 10^((opponent - team) / 400)) that the team scores against the opponent.
   */
  function ExpectedElo(pow: Pow10, opponentElo: real, teamElo: real): (e: real)
    ensures 0.0 < e < 1.0
    ensures opponentElo == teamElo ==> e == 0.5
  {
    var p := pow((opponentElo - teamElo) / 400.0);
    assert p > 0.0;
    1.0 / (1.0 + p)
  }

  /** The two sides' expectations against each other always sum to 1. */
  lemma ExpectedComplement(pow: Pow10, a: real, b: real)
    ensures ExpectedElo(pow, b, a) + ExpectedElo(pow, a, b) == 1.0
  {
  }

  /** The expectation rises strictly with the team's own rating. */
  lemma ExpectedIncreasing(pow: Pow10, opponentElo: real, lower: real, higher: real)
    requires lower < higher
    ensures ExpectedElo(pow, opponentElo, lower) < ExpectedElo(pow, opponentElo, higher)
  {
    var p, q := pow((opponentElo - lower) / 400.0), pow((opponentElo - higher) / 400.0);
    assert (opponentElo - higher) / 400.0 < (opponentElo - lower) / 400.0;
    assert 0.0 < q < p;
    ReciprocalDecreasing(1.0 + q, 1.0 + p);
  }

  /** A team is favoured (expectation above one half) exactly when it is rated higher. */
  lemma ExpectedFavoursHigher(pow: Pow10, opponentElo: real, teamElo: real)
    ensures ExpectedElo(pow, opponentElo, teamElo) > 0.5 <==> teamElo > opponentElo
    ensures ExpectedElo(pow, opponentElo, teamElo) < 0.5 <==> teamElo < opponentElo
  {
  }

  /**
   * updateEloForScores(team, expected, score, k): one Elo step. No surprise
   * leaves the rating alone; with a positive step size the rating rises exactly
   * when the team did better than expected and falls exactly when it did worse.
   */
  function UpdateElo(teamElo: real, expectedScore: real, score: real, kFactor: real): (r: real)
    ensures score == expectedScore ==> r == teamElo
    ensures kFactor > 0.0 ==> (r > teamElo <==> score > expectedScore)
    ensures kFactor > 0.0 ==> (r < teamElo <==> score < expectedScore)
  {
    teamElo + kFactor * (score - expectedScore)
  }

  // Facts about real division that the proofs above use.

  lemma QuotientMonotone(a: real, b: real, d: real)
    requires d > 0.0 && a <= b
    ensures a / d <= b / d
  {
    var qa, qb := a / d, b / d;
    assert (qb - qa) * d == b - a;
  }

  lemma QuotientStrictlyMonotone(a: real, b: real, d: real)
    requires d > 0.0 && a < b
    ensures a / d < b / d
  {
    var qa, qb := a / d, b / d;
    assert (qb - qa) * d == b - a;
  }

  lemma QuotientUnit(a: real, d: real)
    ensures d > 0.0 && 0.0 <= a <= d ==> 0.0 <= a / d <= 1.0
  {
    if d > 0.0 {
      var q := a / d;
      assert q * d == a;
    }
  }

  lemma ReciprocalDecreasing(u: real, v: real)
    requires 0.0 < u < v
    ensures 1.0 / v < 1.0 / u
  {
    var a, b := 1.0 / u, 1.0 / v;
    assert a * u == 1.0 && b * v == 1.0;
  }
}
