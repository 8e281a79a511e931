# Football probability tracker — a Dafny model

The Football probability tracker collects Swiss Super League fixtures from a
football statistics web service, stores them in a SQLite database, rates the
teams with an Elo scheme, and turns two teams' ratings into win chances.
This project models the three programs that do the work:

- **Ingestion** (`getDataFromAPI.go`, module `Ingestion` in `ingestion.dfy`):
  which fetched fixtures are recorded (a non-object is skipped, a stored or
  not-started fixture is skipped, a missing team or goal figure is skipped,
  an unchecked type assertion panics); how the shots and possession figures
  of both teams are picked out of a statistics response (record 0 is team 1,
  every later record overwrites team 2, the last matching entry wins, a
  possession figure has its `%` stripped and is parsed); the check that
  stops the run when any of the six figures is 0; and the INSERT statements
  the program builds. The database is a class `FootballDb` with one
  append-only sequence per table.
- **Elo ranking** (`createEloRanking.go`, modules `EloMath` in `elo_math.dfy`
  and `EloRanking` in `elo_ranking.dfy`): score normalisation, the Elo
  expectation `1 / (1 + 10^((opponent - team) / 400))`, the update
  `team + K * (score - expected)` with K = 20, and the pass over all stored
  fixtures that reads both teams' ratings (1000 when none is stored), then
  writes both new ratings. The rating store is a class `RatingStore` whose
  `ratings` map the methods update; the pass is proved equal to a fold of a
  per-fixture step function, and the properties of the step are lemmas.
- **Chances** (`generateChances.go`, module `Chances` in `chances.dfy`): the
  weighted blend 0.3 / 0.3 / 0.15 / 0.25 of a team's four dimension ratings,
  the two-sided Elo expectation as the pair of chances, the case-insensitive
  reverse lookup from team name to id, and the hard-coded Grasshoppers
  against FC Basel prediction of `main`.

`math.Pow(10, x)` is not computed: the model receives it as a value of the
subset type `EloMath.Pow10` — any function that is positive, maps 0 to 1,
maps `-x` to the reciprocal of `x`'s value and is strictly increasing. Every
Elo property is proved for every such function, and `EloMath.LawfulStandIn`
shows the laws can be met. Floating-point numbers are modelled as exact
reals. The HTTP requests are replaced by their decoded JSON responses (a
`fetch` function from fixture id to an optional response), `strconv.ParseFloat`
by a `parse` parameter, and the SQLite tables by sequences and maps.
`Wrappers` (`wrappers.dfy`) holds the `Option` and `Result` types.

## Model

| member | source | states |
|---|---|---|
| EloMath.NormalizeScore | createEloRanking.go:38-40 | The minimum score maps to 0, the maximum to 1, and a score inside the range to a value in [0, 1]. |
| EloMath.NormalizeMonotone | createEloRanking.go:38-40 | A higher score never normalises lower. |
| EloMath.NormalizeStrictlyMonotone | createEloRanking.go:38-40 | A strictly higher score normalises strictly higher. |
| EloMath.ExpectedElo | createEloRanking.go:66-70 | The expectation is strictly between 0 and 1, and exactly 0.5 between equal ratings. |
| EloMath.ExpectedComplement | createEloRanking.go:132-133 | The two sides' expectations for one fixture sum to 1. |
| EloMath.ExpectedIncreasing | createEloRanking.go:66-70 | Against a fixed opponent, a higher rating has a strictly higher expectation. |
| EloMath.ExpectedFavoursHigher | createEloRanking.go:66-70 | The expectation exceeds 0.5 exactly when the team is rated above its opponent, and is below 0.5 exactly when rated below. |
| EloMath.UpdateElo | createEloRanking.go:72-76 | Scoring exactly as expected leaves the rating unchanged; with a positive K the rating rises exactly when the score beats the expectation and falls exactly when it falls short. |
| EloMath.StandInIsLawful | createEloRanking.go:67 | A concrete function satisfies all the laws assumed of the power of ten, so the assumptions are consistent. |
| EloRanking.EloFromLookup | createEloRanking.go:42-64 | A found rating is returned as stored; no row and a query error both give the default 1000. |
| EloRanking.FixtureStep | createEloRanking.go:121-139 | One fixture rates exactly its two teams and leaves every other stored rating unchanged. |
| EloRanking.FoldFixtures | createEloRanking.go:110-140 | After the pass exactly the teams rated before it, and every team that plays some fixture, are rated. |
| EloRanking.FixtureStepTotalChange | createEloRanking.go:132-136 | For two distinct teams the two rating changes sum to K times (sum of normalised scores minus 1): Elo points are conserved when the normalised scores sum to 1. |
| EloRanking.FixtureStepDirection | createEloRanking.go:132-136 | Each team's rating rises exactly when its normalised score beats its expectation. |
| EloRanking.EqualRatingsFollowScore | createEloRanking.go:123-136 | Between equally rated teams, the team with more goals ends rated higher, and a draw leaves them level. |
| EloRanking.FoldAppend | createEloRanking.go:110-140 | Rating a list of fixtures in two parts equals rating it in one pass. |
| EloRanking.FoldUntouched | createEloRanking.go:110-140 | A team that plays in none of the fixtures keeps its rating, or stays unrated. |
| EloRanking.CarriedRating | createEloRanking.go:110-140 | A team's rating after any later fixture it does not play is the one its last played fixture left. |
| EloRanking.FirstFixtureOfFreshStore | createEloRanking.go:129-139 | On an empty store, a 3-1 home win with scores ranging over [0, 3] rates the home team 1010 and the away team 1000 - 10/3. |
| EloRanking.StepReadsPreFixtureRatings | createEloRanking.go:129-130 | Reading the home rating (which stores it) does not change the away rating read next. |
| EloRanking.RatingStore.GetCurrentElo | createEloRanking.go:42-64 | Returns the stored rating or 1000, and the store then holds that value for the team. |
| EloRanking.RatingStore.SetElo | createEloRanking.go:138-139 | The store holds the new rating for the team and nothing else changes. |
| EloRanking.RatingStore.ProcessFixture | createEloRanking.go:111-139 | The store after one fixture is the fixture step applied to the store before it. |
| EloRanking.RatingStore.CalcEloForScores | createEloRanking.go:100-141 | The store after the pass is the fold of the fixture step over all fixtures in order. |
| Chances.CompositeElo | generateChances.go:48 | The blend lies between the lowest and the highest dimension rating, and four equal ratings blend to that rating. |
| Chances.CompositeMonotone | generateChances.go:48 | A row at least as good in every dimension blends at least as high, and strictly higher when it differs. |
| Chances.GetEloForTeam | generateChances.go:34-50 | Succeeds exactly when the team has a ratings row, with the blend of that row; otherwise fails naming the team. |
| Chances.CalcChancesFromElo | generateChances.go:52-56 | The chances are in (0, 1), sum to 1, are even for equal ratings, and each exceeds 1/2 exactly when that team is rated higher. |
| Chances.ChancesSwap | generateChances.go:52-56 | Swapping the teams swaps their chances. |
| Chances.CalculateChances | generateChances.go:58-69 | Succeeds exactly when both teams have rows; a missing first team is reported before the second; on success the chances sum to 1 and favour the higher blend. |
| Chances.Lower | generateChances.go:97 | Lower-casing keeps the length and folds every character on its own. |
| Chances.LowerIdempotent | generateChances.go:97-104 | Lower-casing a lower-cased name changes nothing, so a stored key matches a lower-cased query. |
| Chances.LowerOfLowerCase | generateChances.go:79-92 | A name without capitals is its own lower-case form. |
| Chances.AnyTeam | generateChances.go:96 | Picks some member of a non-empty set of ids, in no particular order. |
| Chances.BuildReverseLookup | generateChances.go:94-98 | The keys are exactly the lower-cased names; every key maps to an id carrying that name; with distinct names the lookup inverts the table exactly. |
| Chances.PredictMatch | generateChances.go:100-110 | Fails with "team not found" exactly when a name is unknown; otherwise gives the chances of ids carrying the two names, and with distinct names those of the named teams. |
| Chances.SuperLeagueNamesResolve | generateChances.go:79-104 | The hard-coded names are pairwise distinct, and "grasshoppers" and "fc basel" are the names of ids 1013 and 551. |
| Chances.HardCodedPrediction | generateChances.go:71-115 | The prediction main makes is the chances of teams 1013 against 551. |
| Ingestion.StripPercent | getDataFromAPI.go:126 | The result has no '%', keeps every other character with its count, and is the input when that has no '%'. |
| Ingestion.StripPercentAppend | getDataFromAPI.go:126 | Stripping distributes over concatenation, so the remaining characters keep their order. |
| Ingestion.PercentageToFloat | getDataFromAPI.go:125-133 | Succeeds exactly when the parser accepts the stripped figure, with its value; otherwise fails carrying the stripped text. |
| Ingestion.PossessionFigureStripped | getDataFromAPI.go:179-181 | The service's "60%" reaches the parser as "60". |
| Ingestion.ApplyStat | getDataFromAPI.go:165-187 | An entry never changes the team id; only a "Total Shots" entry changes shots; only a "Ball Possession" entry changes possession and only it can fail. |
| Ingestion.ApplyStats | getDataFromAPI.go:165-188 | The statistics of one record never change its team id; they can fail only on a possession figure the parser rejects, and never fail without a possession entry. |
| Ingestion.ApplyRecord | getDataFromAPI.go:140-194 | A malformed record changes nothing; record 0 touches only team 1 and gives it its id, a later record touches only team 2 and gives it its id; only a rejected possession figure stops it. |
| Ingestion.FilterRecords | getDataFromAPI.go:136-197 | The filter fails only on a possession figure the parser rejects; with no well-formed record all six figures stay 0. |
| Ingestion.ParseRecord | getDataFromAPI.go:141-163 | A record is used exactly when it is an object with a team object, a numeric team id and a statistics array. |
| Ingestion.FilterDataFromFixtures | getDataFromAPI.go:135-198 | The nested loops compute the record-by-record fold of the statistics entries over the response. |
| Ingestion.LaterRecordsLeaveSideOne | getDataFromAPI.go:174-194 | Records after the first never change the team-1 figures. |
| Ingestion.MalformedFirstRecordLeavesSideOneUnset | getDataFromAPI.go:140-163 | A malformed record 0 leaves team 1's id, shots and possession at 0. |
| Ingestion.LastWellFormedRecordOwnsSideTwo | getDataFromAPI.go:190-194 | The team-2 id is that of the last well-formed record after record 0. |
| Ingestion.NoLaterRecordLeavesSideTwoUnset | getDataFromAPI.go:136-138 | With no well-formed record after record 0, the team-2 figures stay 0. |
| Ingestion.LastShotsEntryWins | getDataFromAPI.go:172-178 | The last "Total Shots" entry decides the shots figure, a non-numeric value reading as 0. |
| Ingestion.LastPossessionEntryWins | getDataFromAPI.go:179-186 | The last "Ball Possession" entry decides the possession figure, as parsed after stripping '%'. |
| Ingestion.OtherEntriesChangeNothing | getDataFromAPI.go:171-187 | Entries of other types leave all figures unchanged. |
| Ingestion.ValidateExtracted | getDataFromAPI.go:239-244 | Passes the figures through exactly when all six are nonzero; otherwise fails with the zero-value error. |
| Ingestion.AdditionalData | getDataFromAPI.go:200-247 | A missing response is exactly the fetch failure; otherwise only a rejected possession figure or a zero figure fails; a success is the filter's result with all six figures nonzero, and a filtered result is refused exactly when the zero check refuses it. |
| Ingestion.GetAdditionalDataForFixture | getDataFromAPI.go:200-247 | A failed request fails; otherwise the filtered response, refused when any figure is 0; every returned figure is nonzero. |
| Ingestion.CheckIfRowExists | getDataFromAPI.go:53-63 | Reports a row exactly when the scan found one, and an error exactly when the scan failed for another reason than "no rows". |
| Ingestion.BuildInsertQuery | getDataFromAPI.go:65-76 | The statement built with the placeholder loop is "INSERT INTO table (columns) VALUES (?, …)". |
| Ingestion.Placeholders | getDataFromAPI.go:67-70 | One "?" per column. |
| Ingestion.InsertQueryMarks | getDataFromAPI.go:66-76 | With a table and column names free of '?', the statement has exactly one placeholder per column, so the data values line up. |
| Ingestion.FixtureAdmission | getDataFromAPI.go:251-295 | A non-object is skipped; an object without a fixture object holding a numeric id panics; a panic arises only from a missing object or fixture id; an admitted row carries the fixture's own team ids and goals. |
| Ingestion.NoteOne | getDataFromAPI.go:250-313 | Tables only grow; a skipped or crashing fixture changes nothing; an admitted fixture adds its row and two score rows, then two rows to each statistics table when the run goes on and none when it stops. |
| Ingestion.NoteAll | getDataFromAPI.go:249-315 | Tables only grow, by at most one fixture row per fetched fixture. |
| Ingestion.AdmittedFixturesAreNewAndStarted | getDataFromAPI.go:257-273 | A fixture is recorded only with the id it carries, when that id is not stored yet and the fixture is not "NS". |
| Ingestion.StoredOrNotStartedIsSkipped | getDataFromAPI.go:259-273 | A well-identified fixture that is stored already, or not started, is skipped. |
| Ingestion.AbortSticks | getDataFromAPI.go:249-315 | Once a fixture stops the run, later fixtures change nothing. |
| Ingestion.NoteOneKeepsIdsDistinct | getDataFromAPI.go:259-301 | Noting a fixture keeps the stored fixture ids pairwise distinct. |
| Ingestion.NoteAllKeepsIdsDistinct | getDataFromAPI.go:249-315 | However many fetched fixtures share an id, the fixtures table never stores it twice. |
| Ingestion.NoteAllRowCounts | getDataFromAPI.go:299-307 | Tables only grow, earlier rows stay in front; in a run that is not stopped each recorded fixture adds two score rows and two rows to each statistics table. |
| Ingestion.FootballDb.FixtureExists | getDataFromAPI.go:53-63 | True exactly when a stored fixture row has the id. |
| Ingestion.FootballDb.NoteFixture | getDataFromAPI.go:250-312 | The guard chain and inserts for one fixture give the tables and stop reason of the noting function. |
| Ingestion.FootballDb.NoteFixtures | getDataFromAPI.go:249-315 | The tables after the loop, and what stopped it, are those of noting every fixture in order until the first stop. |

## Left out

- HTTP requests, the API key from the environment, JSON decoding and the seven-second pause between fixtures: the decoded response is a parameter (`fetch`); a request or decoding failure is the `FetchFailed` stop.
- `getFixturesForYear` is not modelled: it is only a request; its decoded fixture list is the input of `NoteFixtures`.
- SQLite itself: tables are sequences of rows (ingestion) and a map from team to rating (ranking). The column and table names the programs use do not agree with one another (the rating is read from `elo_rankings.goalElo`, the default inserted into `goalElo`, new ratings inserted into `elo_rankings` rather than updated, `SELECT *` scanned into four variables, ratings read from `elo` by `generateChances.go`); the model reads back what was last written for the team instead of reproducing those mismatches, and failed inserts, whose errors the programs discard, are not modelled.
- `getMaxMinScore` is not modelled: it scans one destination for a two-column query and never assigns the minimum. The score range is a parameter of `CalcEloForScores`, constant over the pass as it would be for an unchanged score table.
- EloMath.NormalizeScore: requires distinct maximum and minimum; the source divides by zero there and produces an infinity or NaN, which reals do not have.
- Floating-point rounding: float64 values are exact reals, and `math.Pow(10, x)` is any function with the laws of `Pow10`.
- `strconv.ParseFloat`, `strconv.Itoa` and the `int(fixtureID)` conversion: the parser is a parameter; ids are kept as numbers.
- Chances.Lower: folds ASCII letters only; `strings.ToLower` also folds other Unicode letters.
- `log.Fatal`, panics and printing: a fatal exit or panic is an error result or the `abort` of a run; printed output is not modelled, including main's rounding of the chances to two decimals.
- The existence query's own failure inside `noteFixtures` (skip the fixture) is only modelled by `CheckIfRowExists`; `FootballDb.FixtureExists` reads the stored rows and never fails.
- A failed scan of a fixtures row in `calcEloForScores` and of the score range in `getMaxMinScore` ends the program with `log.Fatal`; neither is modelled, because fixtures arrive as typed rows and the score range is a parameter.
- The rating query error of `getCurrentEloFromDB` other than "no rows" (1000 returned, nothing inserted) is modelled only by `EloLookup.QueryError` in `EloRanking.EloFromLookup`; `RatingStore.GetCurrentElo` reads a map and never fails, so it always stores the default it returns.
- A failed rating query in `getEloForTeam` (no row or any other error) is the one error `ChanceError.NoRatingRow`.
- Database opening and closing (`initDB`, `closeDB`, `getDB`) and `combinedScripts.go`, which repeats the three programs in one file, are not modelled.
- The winner, total-shots and ball-possession Elo dimensions are read by `generateChances.go` but no program computes them; the model takes them as stored values.
