/**
 * The match predictor: each team's four dimension ratings are blended with
 * fixed weights into one composite, and the two composites go through the
 * Elo expectation to give each team's chance. Teams are named by the user and
 * resolved to ids through a reverse lookup of the team table.
 */
module Chances {
  import opened Wrappers
  import opened EloMath

  /** The data provider's numeric team id; the ingestion, ranking and prediction programs share these ids. */
  type TeamId = int

  /** One row of the ratings table (the team column is the map key). */
  datatype EloRow = EloRow(goalElo: real, winnerElo: real, totalShotsElo: real, ballPossessionElo: real)

  datatype ChanceError =
    | NoRatingRow(team: TeamId)  // the rating query for the team found no row or failed
    | TeamNotFound               // a requested name is not in the reverse lookup

  const GoalWeight: real := 0.3
  const WinnerWeight: real := 0.3
  const TotalShotsWeight: real := 0.15
  const BallPossessionWeight: real := 0.25

  function Min4(row: EloRow): real
  {
    var a := if row.goalElo <= row.winnerElo then row.goalElo else row.winnerElo;
    var b := if row.totalShotsElo <= row.ballPossessionElo then row.totalShotsElo else row.ballPossessionElo;
    if a <= b then a else b
  }

  function Max4(row: EloRow): real
  {
    var a := if row.goalElo >= row.winnerElo then row.goalElo else row.winnerElo;
    var b := if row.totalShotsElo >= row.ballPossessionElo then row.totalShotsElo else row.ballPossessionElo;
    if a >= b then a else b
  }

  /**
   * The weighted blend of getEloForTeam. The weights are positive and sum to
   * one, so the composite lies between the lowest and the highest dimension
   * rating, and four equal ratings blend to that rating.
   */
  function CompositeElo(row: EloRow): (c: real)
    ensures Min4(row) <= c <= Max4(row)
    ensures row.goalElo == row.winnerElo == row.totalShotsElo == row.ballPossessionElo ==> c == row.goalElo
  {
    row.goalElo * GoalWeight + row.winnerElo * WinnerWeight
      + row.totalShotsElo * TotalShotsWeight + row.ballPossessionElo * BallPossessionWeight
  }

  /** A row at least as good in every dimension blends at least as high; strictly higher if it differs. */
  lemma CompositeMonotone(lower: EloRow, upper: EloRow)
    requires lower.goalElo <= upper.goalElo && lower.winnerElo <= upper.winnerElo
    requires lower.totalShotsElo <= upper.totalShotsElo && lower.ballPossessionElo <= upper.ballPossessionElo
    ensures CompositeElo(lower) <= CompositeElo(upper)
    ensures lower != upper ==> CompositeElo(lower) < CompositeElo(upper)
  {
  }

  /** getEloForTeam: the composite of the team's row; a team without a row is an error, not a default. */
  function GetEloForTeam(table: map<TeamId, EloRow>, team: TeamId): (r: Result<real, ChanceError>)
    ensures r.Success? <==> team in table
    ensures r.Success? ==> r.value == CompositeElo(table[team])
    ensures r.Failure? ==> r.error == NoRatingRow(team)
  {
    if team in table then Success(CompositeElo(table[team])) else Failure(NoRatingRow(team))
  }

  /**
   * calcChancesFromElo: each team's chance is its Elo expectation against the
   * other. The chances are proper probabilities summing to one, are even for
   * equal composites, and favour exactly the higher composite.
   */
  function CalcChancesFromElo(pow: Pow10, team1Elo: real, team2Elo: real): (chances: (real, real))
    ensures chances.0 + chances.1 == 1.0
    ensures 0.0 < chances.0 < 1.0 && 0.0 < chances.1 < 1.0
    ensures team1Elo == team2Elo ==> chances == (0.5, 0.5)
    ensures chances.0 > 0.5 <==> team1Elo > team2Elo
    ensures chances.1 > 0.5 <==> team2Elo > team1Elo
  {
    ExpectedComplement(pow, team1Elo, team2Elo);
    ExpectedFavoursHigher(pow, team2Elo, team1Elo);
    ExpectedFavoursHigher(pow, team1Elo, team2Elo);
    (ExpectedElo(pow, team2Elo, team1Elo), ExpectedElo(pow, team1Elo, team2Elo))
  }

  /** Swapping the two teams swaps their chances. */
  lemma ChancesSwap(pow: Pow10, team1Elo: real, team2Elo: real)
    ensures CalcChancesFromElo(pow, team2Elo, team1Elo)
         == (CalcChancesFromElo(pow, team1Elo, team2Elo).1, CalcChancesFromElo(pow, team1Elo, team2Elo).0)
  {
  }

  /**
   * calculateChances: both composites, then the chances; the first team
   * without a rating row aborts the computation.
   */
  function CalculateChances(pow: Pow10, table: map<TeamId, EloRow>, team1: TeamId, team2: TeamId)
    : (r: Result<(real, real), ChanceError>)
    ensures r.Success? <==> team1 in table && team2 in table
    ensures team1 !in table ==> r == Failure(NoRatingRow(team1))
    ensures team1 in table && team2 !in table ==> r == Failure(NoRatingRow(team2))
    ensures r.Success? ==> r.value.0 + r.value.1 == 1.0
    ensures r.Success? ==> (r.value.0 > 0.5 <==> CompositeElo(table[team1]) > CompositeElo(table[team2]))
  {
    match GetEloForTeam(table, team1)
    case Failure(e) => Failure(e)
    case Success(elo1) =>
      match GetEloForTeam(table, team2)
      case Failure(e) => Failure(e)
      case Success(elo2) => Success(CalcChancesFromElo(pow, elo1, elo2))
  }

  /** ASCII case folding of one character. */
  function LowerChar(c: char): char
  {
    if 'A' <= c <= 'Z' then (c as int + 32) as char else c
  }

  /** strings.ToLower, restricted to ASCII letters. */
  function Lower(s: string): (r: string)
    ensures |r| == |s|
    ensures forall i :: 0 <= i < |s| ==> r[i] == LowerChar(s[i])
  {
    seq(|s|, i requires 0 <= i < |s| => LowerChar(s[i]))
  }

  /** Lower-casing twice is lower-casing once, so a stored lower-case key matches a lower-cased query. */
  lemma LowerIdempotent(s: string)
    ensures Lower(Lower(s)) == Lower(s)
  {
  }

  /** A name without upper-case letters is its own lower-case form. */
  lemma LowerOfLowerCase(s: string)
    requires forall i :: 0 <= i < |s| ==> !('A' <= s[i] <= 'Z')
    ensures Lower(s) == s
  {
  }

  /** No two teams in the table share a name up to case. */
  ghost predicate LowerNamesDistinct(teamData: map<TeamId, string>)
  {
    forall id1, id2 :: id1 in teamData && id2 in teamData && id1 != id2 ==> Lower(teamData[id1]) != Lower(teamData[id2])
  }

  /** The name resolves through the reverse lookup. */
  ghost predicate NameKnown(teamData: map<TeamId, string>, name: string)
  {
    exists id :: id in teamData && Lower(teamData[id]) == Lower(name)
  }

  /** Some member of a non-empty set of ids: a map's iteration order is unspecified. */
  method AnyTeam(ids: set<TeamId>) returns (id: TeamId)
    requires ids != {}
    ensures id in ids
  {
    NoMemberMeansEmpty(ids);
    id :| id in ids;
  }

  lemma NoMemberMeansEmpty(ids: set<TeamId>)
    ensures (forall id :: id !in ids) ==> ids == {}
  {
    if forall id :: id !in ids {
      assert ids == {};
    }
  }

  /**
   * The reverse lookup built in main: every lower-cased name of the table maps
   * to an id that carries that name. The table is visited in an unspecified
   * order, so when two teams share a name either id may survive; when names
   * are distinct, every team's own name maps back to it.
   */
  method BuildReverseLookup(teamData: map<TeamId, string>) returns (reverse: map<string, TeamId>)
    ensures reverse.Keys == set id | id in teamData :: Lower(teamData[id])
    ensures forall name :: name in reverse ==> reverse[name] in teamData && Lower(teamData[reverse[name]]) == name
    ensures LowerNamesDistinct(teamData) ==>
              forall id :: id in teamData ==> Lower(teamData[id]) in reverse && reverse[Lower(teamData[id])] == id
  {
    reverse := map[];
    var todo := teamData.Keys;
    while todo != {}
      invariant todo <= teamData.Keys
      invariant reverse.Keys == set id | id in teamData.Keys - todo :: Lower(teamData[id])
      invariant forall name :: name in reverse ==> reverse[name] in teamData && Lower(teamData[reverse[name]]) == name
      decreases todo
    {
      var id := AnyTeam(todo);
      reverse := reverse[Lower(teamData[id]) := id];
      todo := todo - {id};
    }
  }

  /**
   * main's prediction for two team names: an unknown name aborts before any
   * chance is computed; otherwise the chances of the ids the names resolve to.
   */
  method PredictMatch(pow: Pow10, teamData: map<TeamId, string>, table: map<TeamId, EloRow>,
                      team1: string, team2: string)
    returns (outcome: Result<(real, real), ChanceError>)
    ensures outcome == Failure(TeamNotFound) <==> !(NameKnown(teamData, team1) && NameKnown(teamData, team2))
    ensures outcome != Failure(TeamNotFound) ==>
              exists id1, id2 :: id1 in teamData && id2 in teamData
                && Lower(teamData[id1]) == Lower(team1) && Lower(teamData[id2]) == Lower(team2)
                && outcome == CalculateChances(pow, table, id1, id2)
    ensures LowerNamesDistinct(teamData) ==>
              forall id1, id2 :: id1 in teamData && id2 in teamData
                && Lower(teamData[id1]) == Lower(team1) && Lower(teamData[id2]) == Lower(team2)
                ==> outcome == CalculateChances(pow, table, id1, id2)
  {
    var reverse := BuildReverseLookup(teamData);
    var key1, key2 := Lower(team1), Lower(team2);
    if key1 !in reverse || key2 !in reverse {
      outcome := Failure(TeamNotFound);
      return;
    }
    var id1, id2 := reverse[key1], reverse[key2];
    outcome := CalculateChances(pow, table, id1, id2);
  }

  /** The team table hard-coded in main (Swiss Super League ids of the data provider). */
  const SuperLeagueTeams: map<TeamId, string> := map[
    606 := "fc lugano",
    1013 := "grasshoppers",
    6653 := "yverdon",
    783 := "fc zurich",
    2180 := "fc winterthur",
    1011 := "fc st gallen",
    565 := "young boys",
    630 := "sion",
    644 := "fc luzern",
    2184 := "servette",
    1014 := "lausanne",
    551 := "fc basel"
  ]

  /**
   * The hard-coded names are lower case and pairwise distinct, so the reverse
   * lookup is exact; main's two names resolve to 1013 and 551.
   */
  lemma SuperLeagueNamesResolve()
    ensures LowerNamesDistinct(SuperLeagueTeams)
    ensures Lower(SuperLeagueTeams[1013]) == Lower("grasshoppers")
    ensures Lower(SuperLeagueTeams[551]) == Lower("fc basel")
  {
    forall id | id in SuperLeagueTeams
      ensures Lower(SuperLeagueTeams[id]) == SuperLeagueTeams[id]
    {
      LowerOfLowerCase(SuperLeagueTeams[id]);
    }
  }

  /** The prediction main makes: Grasshoppers against FC Basel over the hard-coded team table. */
  method HardCodedPrediction(pow: Pow10, table: map<TeamId, EloRow>) returns (outcome: Result<(real, real), ChanceError>)
    ensures outcome == CalculateChances(pow, table, 1013, 551)
  {
    SuperLeagueNamesResolve();
    outcome := PredictMatch(pow, SuperLeagueTeams, table, "grasshoppers", "fc basel");
  }
}
