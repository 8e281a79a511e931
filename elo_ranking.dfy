/**
 * The goal-score rating pass: every stored fixture, in row order, moves both
 * teams' ratings one Elo step towards their normalised goal counts.
 * The database is a map from team id to rating; an absent team reads as 1000.
 */
module EloRanking {
  import opened EloMath

  /** The data provider's numeric team id; the ingestion, ranking and prediction programs share these ids. */
  type TeamId = int

  /** The rating of a team that has none yet. */
  const DefaultElo: real := 1000.0

  /** The step size of every update in this pass. */
  const KFactor: real := 20.0

  /** One row of the fixtures table as the pass reads it. */
  datatype Fixture = Fixture(homeTeam: TeamId, awayTeam: TeamId, homeScore: int, awayScore: int)

  /** What the rating query for one team can come back with. */
  datatype EloLookup = Found(elo: real) | NoRows | QueryError

  /** getCurrentEloFromDB: a found rating is used; no row and a failed query both read as 1000. */
  function EloFromLookup(lookup: EloLookup): (elo: real)
    ensures lookup.Found? ==> elo == lookup.elo
    ensures !lookup.Found? ==> elo == DefaultElo
  {
    match lookup
    case Found(e) => e
    case NoRows => DefaultElo
    case QueryError => DefaultElo
  }

  /** The rating a team reads as in the given store. */
  function RatingOf(ratings: map<TeamId, real>, team: TeamId): real
  {
    EloFromLookup(if team in ratings then Found(ratings[team]) else NoRows)
  }

  /**
   * The effect of one fixture on the store: both expectations are taken from
   * the ratings before the fixture, both updates use KFactor, and the home
   * rating is written before the away rating.
   */
  function FixtureStep(pow: Pow10, maxScore: real, minScore: real,
                       ratings: map<TeamId, real>, f: Fixture): (r: map<TeamId, real>)
    requires maxScore != minScore
    ensures r.Keys == ratings.Keys + {f.homeTeam, f.awayTeam}
    ensures forall t :: t in ratings && t != f.homeTeam && t != f.awayTeam ==> r[t] == ratings[t]
  {
    var homeElo := RatingOf(ratings, f.homeTeam);
    var awayElo := RatingOf(ratings, f.awayTeam);
    var homeActual := NormalizeScore(maxScore, minScore, f.homeScore as real);
    var awayActual := NormalizeScore(maxScore, minScore, f.awayScore as real);
    var newHome := UpdateElo(homeElo, ExpectedElo(pow, awayElo, homeElo), homeActual, KFactor);
    var newAway := UpdateElo(awayElo, ExpectedElo(pow, homeElo, awayElo), awayActual, KFactor);
    ratings[f.homeTeam := newHome][f.awayTeam := newAway]
  }

  /** The store after the given fixtures, applied one step at a time in row order. */
  function FoldFixtures(pow: Pow10, maxScore: real, minScore: real,
                        ratings: map<TeamId, real>, fixtures: seq<Fixture>): (r: map<TeamId, real>)
    requires maxScore != minScore
    ensures forall team :: team in r <==> team in ratings || exists k :: 0 <= k < |fixtures| && Plays(fixtures[k], team)
    decreases |fixtures|
  {
    if fixtures == [] then ratings
    else
      var last := |fixtures| - 1;
      FixtureStep(pow, maxScore, minScore, FoldFixtures(pow, maxScore, minScore, ratings, fixtures[..last]), fixtures[last])
  }

  /** A team takes part in a fixture when it is the home or the away side. */
  predicate Plays(f: Fixture, team: TeamId)
  {
    f.homeTeam == team || f.awayTeam == team
  }

  /**
   * Between two distinct teams, the two rating changes of one fixture add up
   * to K times the amount by which the two normalised scores exceed 1: the
   * expectations always sum to 1, so a fixture is zero-sum exactly when the
   * normalised scores sum to 1.
   */
  lemma FixtureStepTotalChange(pow: Pow10, maxScore: real, minScore: real,
                               ratings: map<TeamId, real>, f: Fixture)
    requires maxScore != minScore
    requires f.homeTeam != f.awayTeam
    ensures var r := FixtureStep(pow, maxScore, minScore, ratings, f);
            (r[f.homeTeam] - RatingOf(ratings, f.homeTeam)) + (r[f.awayTeam] - RatingOf(ratings, f.awayTeam))
            == KFactor * (NormalizeScore(maxScore, minScore, f.homeScore as real)
                          + NormalizeScore(maxScore, minScore, f.awayScore as real) - 1.0)
  {
    ExpectedComplement(pow, RatingOf(ratings, f.homeTeam), RatingOf(ratings, f.awayTeam));
  }

  /**
   * Each side's rating rises exactly when its normalised score beats the
   * expectation computed from the two ratings before the fixture.
   */
  lemma FixtureStepDirection(pow: Pow10, maxScore: real, minScore: real,
                             ratings: map<TeamId, real>, f: Fixture)
    requires maxScore != minScore
    requires f.homeTeam != f.awayTeam
    ensures var r := FixtureStep(pow, maxScore, minScore, ratings, f);
            var homeElo, awayElo := RatingOf(ratings, f.homeTeam), RatingOf(ratings, f.awayTeam);
            && (r[f.homeTeam] > homeElo <==> NormalizeScore(maxScore, minScore, f.homeScore as real) > ExpectedElo(pow, awayElo, homeElo))
            && (r[f.awayTeam] > awayElo <==> NormalizeScore(maxScore, minScore, f.awayScore as real) > ExpectedElo(pow, homeElo, awayElo))
  {
  }

  /**
   * Between two equally rated teams the side that scored more goals ends the
   * fixture rated higher, and a draw leaves them level.
   */
  lemma {:induction false} EqualRatingsFollowScore(pow: Pow10, maxScore: real, minScore: real,
                                                  ratings: map<TeamId, real>, f: Fixture)
    requires minScore < maxScore
    requires f.homeTeam != f.awayTeam
    requires RatingOf(ratings, f.homeTeam) == RatingOf(ratings, f.awayTeam)
    ensures var r := FixtureStep(pow, maxScore, minScore, ratings, f);
            && (f.homeScore > f.awayScore ==> r[f.homeTeam] > r[f.awayTeam])
            && (f.homeScore == f.awayScore ==> r[f.homeTeam] == r[f.awayTeam])
            && (f.homeScore < f.awayScore ==> r[f.homeTeam] < r[f.awayTeam])
  {
    var h, a := f.homeScore as real, f.awayScore as real;
    var nh, na := NormalizeScore(maxScore, minScore, h), NormalizeScore(maxScore, minScore, a);
    if h > a {
      NormalizeStrictlyMonotone(maxScore, minScore, a, h);
    } else if h < a {
      NormalizeStrictlyMonotone(maxScore, minScore, h, a);
    }
  }

  /** Folding a concatenation is folding the first part, then the second. */
  lemma {:induction false} FoldAppend(pow: Pow10, maxScore: real, minScore: real,
                                      ratings: map<TeamId, real>, xs: seq<Fixture>, ys: seq<Fixture>)
    requires maxScore != minScore
    ensures FoldFixtures(pow, maxScore, minScore, ratings, xs + ys)
         == FoldFixtures(pow, maxScore, minScore, FoldFixtures(pow, maxScore, minScore, ratings, xs), ys)
    decreases |ys|
  {
    if ys == [] {
      assert xs + ys == xs;
    } else {
      var last := |ys| - 1;
      assert (xs + ys)[..|xs + ys| - 1] == xs + ys[..last];
      assert (xs + ys)[|xs + ys| - 1] == ys[last];
      FoldAppend(pow, maxScore, minScore, ratings, xs, ys[..last]);
    }
  }

  /** A team that plays in none of the fixtures keeps its stored row, or its absence. */
  lemma {:induction false} FoldUntouched(pow: Pow10, maxScore: real, minScore: real,
                                         ratings: map<TeamId, real>, fixtures: seq<Fixture>, team: TeamId)
    requires maxScore != minScore
    requires forall k :: 0 <= k < |fixtures| ==> !Plays(fixtures[k], team)
    ensures var r := FoldFixtures(pow, maxScore, minScore, ratings, fixtures);
            && (team in r <==> team in ratings)
            && (team in ratings ==> r[team] == ratings[team])
    decreases |fixtures|
  {
    if fixtures != [] {
      var last := |fixtures| - 1;
      FoldUntouched(pow, maxScore, minScore, ratings, fixtures[..last], team);
    }
  }

  /**
   * Order of the fold: the rating a team takes into fixture i is the one it
   * left fixture j with, when j is the team's previous fixture.
   */
  lemma CarriedRating(pow: Pow10, maxScore: real, minScore: real,
                      ratings: map<TeamId, real>, fixtures: seq<Fixture>, j: nat, i: nat, team: TeamId)
    requires maxScore != minScore
    requires j < i <= |fixtures|
    requires Plays(fixtures[j], team)
    requires forall k :: j < k < i ==> !Plays(fixtures[k], team)
    ensures RatingOf(FoldFixtures(pow, maxScore, minScore, ratings, fixtures[..i]), team)
         == RatingOf(FoldFixtures(pow, maxScore, minScore, ratings, fixtures[..j + 1]), team)
  {
    var between := fixtures[j + 1..i];
    assert fixtures[..i] == fixtures[..j + 1] + between;
    FoldAppend(pow, maxScore, minScore, ratings, fixtures[..j + 1], between);
    FoldUntouched(pow, maxScore, minScore, FoldFixtures(pow, maxScore, minScore, ratings, fixtures[..j + 1]), between, team);
  }

  /**
   * Worked case: two unrated teams, a 3-1 home win, scores normalised over
   * [0, 3]. Both expect one half; the home side gains 10 and the away side
   * loses 10/3.
   */
  lemma FirstFixtureOfFreshStore(pow: Pow10)
    ensures FoldFixtures(pow, 3.0, 0.0, map[], [Fixture(1, 2, 3, 1)])
         == map[1 := 1010.0, 2 := 1000.0 - 10.0 / 3.0]
  {
    var fs := [Fixture(1, 2, 3, 1)];
    assert fs[..0] == [];
    assert ExpectedElo(pow, 1000.0, 1000.0) == 0.5;
  }

  /**
   * Reading the home team first (which may write its default) does not change
   * what the away team reads.
   */
  lemma StepReadsPreFixtureRatings(ratings: map<TeamId, real>, home: TeamId, away: TeamId, homeElo: real)
    requires homeElo == RatingOf(ratings, home)
    ensures RatingOf(ratings[home := homeElo], away) == RatingOf(ratings, away)
  {
  }

  /** The ratings database of the pass. */
  class RatingStore {
    var ratings: map<TeamId, real>

    constructor ()
      ensures ratings == map[]
    {
      ratings := map[];
    }

    /**
     * getCurrentEloFromDB: reads a team's rating; on a miss the default is
     * written to the store before it is returned.
     */
    method GetCurrentElo(team: TeamId) returns (elo: real)
      modifies this
      ensures elo == RatingOf(old(ratings), team)
      ensures ratings == old(ratings)[team := elo]
    {
      if team in ratings {
        elo := EloFromLookup(Found(ratings[team]));
      } else {
        elo := EloFromLookup(NoRows);
        ratings := ratings[team := elo];
      }
    }

    /** The write of one updated rating; the last write for a team wins. */
    method SetElo(team: TeamId, elo: real)
      modifies this
      ensures ratings == old(ratings)[team := elo]
    {
      ratings := ratings[team := elo];
    }

    /**
     * The body of calcEloForScores' row loop: read both ratings, compute both
     * expectations from them, then write the home and the away update.
     */
    method ProcessFixture(pow: Pow10, maxScore: real, minScore: real, f: Fixture)
      requires maxScore != minScore
      modifies this
      ensures ratings == FixtureStep(pow, maxScore, minScore, old(ratings), f)
    {
      var normalizedHome := NormalizeScore(maxScore, minScore, f.homeScore as real);
      var normalizedAway := NormalizeScore(maxScore, minScore, f.awayScore as real);
      var homeElo := GetCurrentElo(f.homeTeam);
      var awayElo := GetCurrentElo(f.awayTeam);
      StepReadsPreFixtureRatings(old(ratings), f.homeTeam, f.awayTeam, homeElo);
      var expectedHome := ExpectedElo(pow, awayElo, homeElo);
      var expectedAway := ExpectedElo(pow, homeElo, awayElo);
      SetElo(f.homeTeam, UpdateElo(homeElo, expectedHome, normalizedHome, KFactor));
      SetElo(f.awayTeam, UpdateElo(awayElo, expectedAway, normalizedAway, KFactor));
    }

    /**
     * calcEloForScores: one pass over the fixtures in row order. The score
     * population's maximum and minimum are inputs of the pass.
     */
    method CalcEloForScores(pow: Pow10, maxScore: real, minScore: real, fixtures: seq<Fixture>)
      requires maxScore != minScore
      modifies this
      ensures ratings == FoldFixtures(pow, maxScore, minScore, old(ratings), fixtures)
    {
      var i := 0;
      while i < |fixtures|
        invariant 0 <= i <= |fixtures|
        invariant ratings == FoldFixtures(pow, maxScore, minScore, old(ratings), fixtures[..i])
      {
        ProcessFixture(pow, maxScore, minScore, fixtures[i]);
        assert fixtures[..i + 1][..i] == fixtures[..i];
        i := i + 1;
      }
      assert fixtures[..i] == fixtures;
    }
  }
}
