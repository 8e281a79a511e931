/**
 * The record handling of the ingestion program: picking the shots and
 * possession figures of both teams out of a statistics response, checking
 * them, building INSERT statements, and deciding which fetched fixtures are
 * stored. HTTP requests are replaced by their decoded responses; the SQLite
 * tables are sequences of rows.
 */
module Ingestion {
  import opened Wrappers

  /** A decoded JSON value, as encoding/json produces it (every number is a float64). */
  datatype Json =
    | JNull
    | JBool(b: bool)
    | JNumber(n: real)
    | JString(s: string)
    | JArray(items: seq<Json>)
    | JObject(fields: map<string, Json>)

  /** Indexing a decoded object: a missing key reads as null. */
  function Field(j: Json, key: string): Json
  {
    if j.JObject? && key in j.fields then j.fields[key] else JNull
  }

  /** Ways the ingestion run ends early. */
  datatype IngestError =
    | ParseFailure(text: string)  // strconv.ParseFloat rejected a possession figure (log.Fatal)
    | ZeroValue                   // an extracted statistic or team id was 0 (log.Fatal)
    | FetchFailed                 // the statistics request or its decoding failed (log.Fatal)
    | Panic                       // an unchecked type assertion failed

  // ---------------------------------------------------------------------------
  // PercentagetoFloat

  /** strings.Replace(s, "%", "", -1): every '%' removed, the rest kept in order. */
  function StripPercent(s: string): (r: string)
    ensures forall i :: 0 <= i < |r| ==> r[i] != '%'
    ensures forall c :: c != '%' ==> multiset(r)[c] == multiset(s)[c]
    ensures (forall i :: 0 <= i < |s| ==> s[i] != '%') ==> r == s
  {
    if s == [] then []
    else
      assert s == [s[0]] + s[1..];
      (if s[0] == '%' then [] else [s[0]]) + StripPercent(s[1..])
  }

  /** Stripping distributes over concatenation, so the characters that stay keep their order. */
  lemma {:induction false} StripPercentAppend(a: string, b: string)
    ensures StripPercent(a + b) == StripPercent(a) + StripPercent(b)
  {
    if a == [] {
      assert a + b == b;
    } else {
      assert (a + b)[1..] == a[1..] + b;
      StripPercentAppend(a[1..], b);
    }
  }

  /**
   * PercentagetoFloat: the figure with '%' removed, read by the float parser;
   * a figure the parser rejects stops the run.
   */
  function PercentageToFloat(percentage: string, parse: string -> Option<real>): (r: Result<real, IngestError>)
    ensures r.Success? <==> parse(StripPercent(percentage)).Some?
    ensures r.Success? ==> r.value == parse(StripPercent(percentage)).value
    ensures r.Failure? ==> r.error == ParseFailure(StripPercent(percentage))
  {
    var stripped := StripPercent(percentage);
    match parse(stripped)
    case Some(v) => Success(v)
    case None => Failure(ParseFailure(stripped))
  }

  /** The API's possession figure "60%" reaches the parser as "60". */
  lemma PossessionFigureStripped()
    ensures StripPercent("60%") == "60"
  {
    assert "60%" == "60" + "%";
    StripPercentAppend("60", "%");
  }

  // ---------------------------------------------------------------------------
  // filterDataFromFixtures

  const TotalShotsType: string := "Total Shots"
  const BallPossessionType: string := "Ball Possession"

  /** The three figures kept for one side; 0 until something is read. */
  datatype Side = Side(teamId: real, totalShots: real, ballPossession: real)

  const Unset: Side := Side(0.0, 0.0, 0.0)

  /** The six figures the filter returns, team 1 from record 0 and team 2 from the rest. */
  datatype Extracted = Extracted(side1: Side, side2: Side)

  /** `v, _ := x.(float64)`: the number, or 0 for anything else. */
  function NumberOrZero(j: Json): real
  {
    if j.JNumber? then j.n else 0.0
  }

  /** `v, _ := x.(string)`: the string, or "" for anything else. */
  function StringOrEmpty(j: Json): string
  {
    if j.JString? then j.s else ""
  }

  predicate IsShotsEntry(stat: Json)
  {
    stat.JObject? && Field(stat, "type") == JString(TotalShotsType)
  }

  predicate IsPossessionEntry(stat: Json)
  {
    stat.JObject? && Field(stat, "type") == JString(BallPossessionType)
  }

  /** One statistics entry applied to the side's figures; other entry types change nothing. */
  function ApplyStat(side: Side, stat: Json, parse: string -> Option<real>): (r: Result<Side, IngestError>)
    ensures r.Success? ==> r.value.teamId == side.teamId
    ensures !IsPossessionEntry(stat) ==> r.Success?
    ensures r.Failure? ==> r.error.ParseFailure?
    ensures r.Success? && !IsShotsEntry(stat) ==> r.value.totalShots == side.totalShots
    ensures r.Success? && !IsPossessionEntry(stat) ==> r.value.ballPossession == side.ballPossession
  {
    if IsShotsEntry(stat) then
      Success(side.(totalShots := NumberOrZero(Field(stat, "value"))))
    else if IsPossessionEntry(stat) then
      match PercentageToFloat(StringOrEmpty(Field(stat, "value")), parse)
      case Failure(e) => Failure(e)
      case Success(p) => Success(side.(ballPossession := p))
    else
      Success(side)
  }

  /** The first n statistics entries applied in order, stopping at the first failure. */
  function ApplyStats(side: Side, stats: seq<Json>, n: nat, parse: string -> Option<real>): (r: Result<Side, IngestError>)
    requires n <= |stats|
    ensures r.Success? ==> r.value.teamId == side.teamId
    ensures r.Failure? ==> r.error.ParseFailure?
    ensures (forall j :: 0 <= j < n ==> !IsPossessionEntry(stats[j])) ==> r.Success?
  {
    if n == 0 then Success(side)
    else
      match ApplyStats(side, stats, n - 1, parse)
      case Failure(e) => Failure(e)
      case Success(s) => ApplyStat(s, stats[n - 1], parse)
  }

  /** A team record that passes the four shape checks: an object, a team object, a numeric id, a statistics array. */
  datatype TeamRecord = TeamRecord(teamId: real, statistics: seq<Json>)

  function ParseRecord(rec: Json): (r: Option<TeamRecord>)
    ensures r.Some? <==> rec.JObject? && Field(rec, "team").JObject?
                         && Field(Field(rec, "team"), "id").JNumber? && Field(rec, "statistics").JArray?
  {
    var team := Field(rec, "team");
    var statistics := Field(rec, "statistics");
    if rec.JObject? && team.JObject? && Field(team, "id").JNumber? && statistics.JArray? then
      Some(TeamRecord(Field(team, "id").n, statistics.items))
    else
      None
  }

  /** One response record applied at its index: index 0 fills side 1, every other index side 2. */
  function ApplyRecord(acc: Extracted, index: nat, rec: Json, parse: string -> Option<real>): (r: Result<Extracted, IngestError>)
    ensures ParseRecord(rec).None? ==> r == Success(acc)
    ensures r.Failure? ==> r.error.ParseFailure?
    ensures r.Success? && index == 0 ==> r.value.side2 == acc.side2
    ensures r.Success? && index != 0 ==> r.value.side1 == acc.side1
    ensures r.Success? && ParseRecord(rec).Some? ==>
              (if index == 0 then r.value.side1 else r.value.side2).teamId == ParseRecord(rec).value.teamId
  {
    match ParseRecord(rec)
    case None => Success(acc)
    case Some(tr) =>
      match ApplyStats(if index == 0 then acc.side1 else acc.side2, tr.statistics, |tr.statistics|, parse)
      case Failure(e) => Failure(e)
      case Success(s) =>
        var side := s.(teamId := tr.teamId);
        Success(if index == 0 then acc.(side1 := side) else acc.(side2 := side))
  }

  /** The first n records of the response applied in order. */
  function FilterRecords(data: seq<Json>, n: nat, parse: string -> Option<real>): (r: Result<Extracted, IngestError>)
    requires n <= |data|
    ensures r.Failure? ==> r.error.ParseFailure?
    ensures (forall j :: 0 <= j < n ==> ParseRecord(data[j]).None?) ==> r == Success(Extracted(Unset, Unset))
  {
    if n == 0 then Success(Extracted(Unset, Unset))
    else
      match FilterRecords(data, n - 1, parse)
      case Failure(e) => Failure(e)
      case Success(acc) => ApplyRecord(acc, n - 1, data[n - 1], parse)
  }

  lemma {:induction false} StatsFailureSticks(side: Side, stats: seq<Json>, n: nat, m: nat, parse: string -> Option<real>)
    requires n <= m <= |stats|
    requires ApplyStats(side, stats, n, parse).Failure?
    ensures ApplyStats(side, stats, m, parse) == ApplyStats(side, stats, n, parse)
    decreases m
  {
    if m > n {
      StatsFailureSticks(side, stats, n, m - 1, parse);
    }
  }

  lemma {:induction false} FilterFailureSticks(data: seq<Json>, n: nat, m: nat, parse: string -> Option<real>)
    requires n <= m <= |data|
    requires FilterRecords(data, n, parse).Failure?
    ensures FilterRecords(data, m, parse) == FilterRecords(data, n, parse)
    decreases m
  {
    if m > n {
      FilterFailureSticks(data, n, m - 1, parse);
    }
  }

  /**
   * filterDataFromFixtures: walks the response records and their statistics,
   * overwriting six figures that start at 0.
   */
  method FilterDataFromFixtures(data: seq<Json>, parse: string -> Option<real>) returns (result: Result<Extracted, IngestError>)
    ensures result == FilterRecords(data, |data|, parse)
  {
    var team1Id, totalShots1, ballPossession1 := 0.0, 0.0, 0.0;
    var team2Id, totalShots2, ballPossession2 := 0.0, 0.0, 0.0;
    var i := 0;
    while i < |data|
      invariant 0 <= i <= |data|
      invariant FilterRecords(data, i, parse)
             == Success(Extracted(Side(team1Id, totalShots1, ballPossession1), Side(team2Id, totalShots2, ballPossession2)))
    {
      var record := ParseRecord(data[i]);
      if record.Some? {
        var stats := record.value.statistics;
        ghost var acc := Extracted(Side(team1Id, totalShots1, ballPossession1), Side(team2Id, totalShots2, ballPossession2));
        ghost var start := if i == 0 then acc.side1 else acc.side2;
        var j := 0;
        while j < |stats|
          invariant 0 <= j <= |stats|
          invariant i == 0 ==> ApplyStats(start, stats, j, parse) == Success(Side(team1Id, totalShots1, ballPossession1))
          invariant i != 0 ==> ApplyStats(start, stats, j, parse) == Success(Side(team2Id, totalShots2, ballPossession2))
          invariant i == 0 ==> Side(team2Id, totalShots2, ballPossession2) == acc.side2
          invariant i != 0 ==> Side(team1Id, totalShots1, ballPossession1) == acc.side1
        {
          var stat := stats[j];
          if stat.JObject? {
            var kind := Field(stat, "type");
            if kind == JString(TotalShotsType) {
              var shots := NumberOrZero(Field(stat, "value"));
              if i == 0 {
                totalShots1 := shots;
              } else {
                totalShots2 := shots;
              }
            } else if kind == JString(BallPossessionType) {
              var possession := PercentageToFloat(StringOrEmpty(Field(stat, "value")), parse);
              if possession.Failure? {
                result := Failure(possession.error);
                StatsFailureSticks(start, stats, j + 1, |stats|, parse);
                FilterFailureSticks(data, i + 1, |data|, parse);
                return;
              }
              if i == 0 {
                ballPossession1 := possession.value;
              } else {
                ballPossession2 := possession.value;
              }
            }
          }
          j := j + 1;
        }
        if i == 0 {
          team1Id := record.value.teamId;
        } else {
          team2Id := record.value.teamId;
        }
      }
      i := i + 1;
    }
    result := Success(Extracted(Side(team1Id, totalShots1, ballPossession1), Side(team2Id, totalShots2, ballPossession2)));
  }

  /** Records after the first never touch the team-1 figures. */
  lemma {:induction false} LaterRecordsLeaveSideOne(data: seq<Json>, n: nat, parse: string -> Option<real>)
    requires 1 <= n <= |data|
    requires FilterRecords(data, n, parse).Success?
    ensures FilterRecords(data, 1, parse).Success?
    ensures FilterRecords(data, n, parse).value.side1 == FilterRecords(data, 1, parse).value.side1
    decreases n
  {
    if n > 1 {
      LaterRecordsLeaveSideOne(data, n - 1, parse);
    }
  }

  /** A malformed record 0 leaves the team-1 id, shots and possession at 0. */
  lemma MalformedFirstRecordLeavesSideOneUnset(data: seq<Json>, parse: string -> Option<real>)
    requires 1 <= |data|
    requires ParseRecord(data[0]).None?
    requires FilterRecords(data, |data|, parse).Success?
    ensures FilterRecords(data, |data|, parse).value.side1 == Unset
  {
    LaterRecordsLeaveSideOne(data, |data|, parse);
  }

  /**
   * The team-2 id is that of the last well-formed record after record 0: a
   * later record overwrites an earlier one, a malformed one is skipped but
   * still takes up its index.
   */
  lemma {:induction false} LastWellFormedRecordOwnsSideTwo(data: seq<Json>, n: nat, k: nat, parse: string -> Option<real>)
    requires 1 <= k < n <= |data|
    requires ParseRecord(data[k]).Some?
    requires forall j :: k < j < n ==> ParseRecord(data[j]).None?
    requires FilterRecords(data, n, parse).Success?
    ensures FilterRecords(data, n, parse).value.side2.teamId == ParseRecord(data[k]).value.teamId
    decreases n
  {
    if n - 1 > k {
      LastWellFormedRecordOwnsSideTwo(data, n - 1, k, parse);
    }
  }

  /** With no well-formed record after record 0, the team-2 figures stay 0. */
  lemma {:induction false} NoLaterRecordLeavesSideTwoUnset(data: seq<Json>, n: nat, parse: string -> Option<real>)
    requires n <= |data|
    requires forall j :: 1 <= j < n ==> ParseRecord(data[j]).None?
    requires FilterRecords(data, n, parse).Success?
    ensures FilterRecords(data, n, parse).value.side2 == Unset
    decreases n
  {
    if n > 0 {
      NoLaterRecordLeavesSideTwoUnset(data, n - 1, parse);
    }
  }

  /** The last "Total Shots" entry decides the shots figure; a non-numeric value reads as 0. */
  lemma {:induction false} LastShotsEntryWins(side: Side, stats: seq<Json>, n: nat, k: nat, parse: string -> Option<real>)
    requires k < n <= |stats|
    requires IsShotsEntry(stats[k])
    requires forall j :: k < j < n ==> !IsShotsEntry(stats[j])
    requires ApplyStats(side, stats, n, parse).Success?
    ensures ApplyStats(side, stats, n, parse).value.totalShots == NumberOrZero(Field(stats[k], "value"))
    decreases n
  {
    if n - 1 > k {
      LastShotsEntryWins(side, stats, n - 1, k, parse);
    }
  }

  /** The last "Ball Possession" entry decides the possession figure, as parsed after stripping '%'. */
  lemma {:induction false} LastPossessionEntryWins(side: Side, stats: seq<Json>, n: nat, k: nat, parse: string -> Option<real>)
    requires k < n <= |stats|
    requires IsPossessionEntry(stats[k])
    requires forall j :: k < j < n ==> !IsPossessionEntry(stats[j])
    requires ApplyStats(side, stats, n, parse).Success?
    ensures PercentageToFloat(StringOrEmpty(Field(stats[k], "value")), parse).Success?
    ensures ApplyStats(side, stats, n, parse).value.ballPossession
         == PercentageToFloat(StringOrEmpty(Field(stats[k], "value")), parse).value
    decreases n
  {
    if n - 1 > k {
      LastPossessionEntryWins(side, stats, n - 1, k, parse);
    }
  }

  /** Without any "Total Shots" or "Ball Possession" entry the figures keep their previous values. */
  lemma {:induction false} OtherEntriesChangeNothing(side: Side, stats: seq<Json>, n: nat, parse: string -> Option<real>)
    requires n <= |stats|
    requires forall j :: 0 <= j < n ==> !IsShotsEntry(stats[j]) && !IsPossessionEntry(stats[j])
    ensures ApplyStats(side, stats, n, parse) == Success(side)
    decreases n
  {
    if n > 0 {
      OtherEntriesChangeNothing(side, stats, n - 1, parse);
    }
  }

  // ---------------------------------------------------------------------------
  // getAdditionalDataForFixture

  /** The check that stops the run when any of the six figures is 0. */
  function ValidateExtracted(e: Extracted): (r: Result<Extracted, IngestError>)
    ensures r.Success? <==> e.side1.teamId != 0.0 && e.side1.totalShots != 0.0 && e.side1.ballPossession != 0.0
                            && e.side2.teamId != 0.0 && e.side2.totalShots != 0.0 && e.side2.ballPossession != 0.0
    ensures r.Success? ==> r.value == e
    ensures r.Failure? ==> r.error == ZeroValue
  {
    if e.side1.teamId == 0.0 || e.side1.totalShots == 0.0 || e.side1.ballPossession == 0.0
       || e.side2.teamId == 0.0 || e.side2.totalShots == 0.0 || e.side2.ballPossession == 0.0
    then Failure(ZeroValue)
    else Success(e)
  }

  /** The statistics of one fixture from its decoded response ("response" array), filtered and checked. */
  function AdditionalData(response: Option<seq<Json>>, parse: string -> Option<real>): (r: Result<Extracted, IngestError>)
    ensures response.None? <==> r == Failure(FetchFailed)
    ensures r.Failure? && response.Some? ==> r.error.ParseFailure? || r.error == ZeroValue
    ensures r.Success? ==> response.Some? && FilterRecords(response.value, |response.value|, parse) == Success(r.value)
    ensures r.Success? ==> r.value.side1.teamId != 0.0 && r.value.side1.totalShots != 0.0 && r.value.side1.ballPossession != 0.0
                           && r.value.side2.teamId != 0.0 && r.value.side2.totalShots != 0.0 && r.value.side2.ballPossession != 0.0
    ensures response.Some? && FilterRecords(response.value, |response.value|, parse).Success? ==>
              (r.Success? <==> ValidateExtracted(FilterRecords(response.value, |response.value|, parse).value).Success?)
  {
    match response
    case None => Failure(FetchFailed)
    case Some(data) =>
      match FilterRecords(data, |data|, parse)
      case Failure(e) => Failure(e)
      case Success(e) => ValidateExtracted(e)
  }

  /**
   * getAdditionalDataForFixture after the request: filter the response, then
   * refuse any result with a zero figure.
   */
  method GetAdditionalDataForFixture(response: Option<seq<Json>>, parse: string -> Option<real>)
    returns (r: Result<Extracted, IngestError>)
    ensures r == AdditionalData(response, parse)
    ensures r.Success? ==> r.value.side1.teamId != 0.0 && r.value.side1.totalShots != 0.0 && r.value.side1.ballPossession != 0.0
                           && r.value.side2.teamId != 0.0 && r.value.side2.totalShots != 0.0 && r.value.side2.ballPossession != 0.0
    ensures r.Success? ==> response.Some? && FilterRecords(response.value, |response.value|, parse) == Success(r.value)
  {
    if response.None? {
      return Failure(FetchFailed);
    }
    var filtered := FilterDataFromFixtures(response.value, parse);
    if filtered.Failure? {
      return Failure(filtered.error);
    }
    r := ValidateExtracted(filtered.value);
  }

  // ---------------------------------------------------------------------------
  // checkIfRowExists

  /** What the existence query's Scan can return. */
  datatype RowScan = RowFound | ErrNoRows | ScanFailed(message: string)

  /** checkIfRowExists: "no rows" is (false, no error); another error is (false, error); a row is (true, no error). */
  function CheckIfRowExists(scan: RowScan): (r: (bool, Option<string>))
    ensures r.0 <==> scan.RowFound?
    ensures r.1.Some? <==> scan.ScanFailed?
    ensures scan.ScanFailed? ==> r.1.value == scan.message
  {
    match scan
    case RowFound => (true, None)
    case ErrNoRows => (false, None)
    case ScanFailed(message) => (false, Some(message))
  }

  // ---------------------------------------------------------------------------
  // enterDataIntoDB

  /** strings.Join. */
  function Join(parts: seq<string>, sep: string): string
    decreases |parts|
  {
    if |parts| == 0 then ""
    else if |parts| == 1 then parts[0]
    else parts[0] + sep + Join(parts[1..], sep)
  }

  /** n copies of "?". */
  function Placeholders(n: nat): (r: seq<string>)
    ensures |r| == n
    ensures forall i :: 0 <= i < n ==> r[i] == "?"
  {
    seq(n, _ => "?")
  }

  /** The statement text enterDataIntoDB passes to Exec. */
  function InsertQuery(table: string, columns: seq<string>): string
  {
    "INSERT INTO " + table + " (" + Join(columns, ", ") + ") VALUES (" + Join(Placeholders(|columns|), ", ") + ")"
  }

  /** enterDataIntoDB's statement: a placeholder slice filled with "?" in a loop, then both lists joined. */
  method BuildInsertQuery(table: string, columns: seq<string>) returns (query: string)
    ensures query == InsertQuery(table, columns)
  {
    var placeholders := new string[|columns|];
    for i := 0 to placeholders.Length
      invariant forall k :: 0 <= k < i ==> placeholders[k] == "?"
    {
      placeholders[i] := "?";
    }
    assert placeholders[..] == Placeholders(|columns|);
    query := "INSERT INTO " + table + " (" + Join(columns, ", ") + ") VALUES (" + Join(placeholders[..], ", ") + ")";
  }

  /** The number of occurrences of c in s. */
  function Count(c: char, s: string): nat
  {
    if s == [] then 0 else (if s[0] == c then 1 else 0) + Count(c, s[1..])
  }

  lemma {:induction false} CountAppend(c: char, a: string, b: string)
    ensures Count(c, a + b) == Count(c, a) + Count(c, b)
  {
    if a == [] {
      assert a + b == b;
    } else {
      assert (a + b)[1..] == a[1..] + b;
      CountAppend(c, a[1..], b);
    }
  }

  /** Joined with ", ", n placeholders contain exactly n question marks. */
  lemma {:induction false} PlaceholderMarks(n: nat)
    ensures Count('?', Join(Placeholders(n), ", ")) == n
  {
    if n == 1 {
      assert Join(Placeholders(1), ", ") == "?";
    } else if n > 1 {
      assert Placeholders(n)[1..] == Placeholders(n - 1);
      PlaceholderMarks(n - 1);
      CountAppend('?', "?" + ", ", Join(Placeholders(n - 1), ", "));
      assert Count('?', "?, ") == 1;
    }
  }

  /** Parts and a separator without question marks join to a string without one. */
  lemma {:induction false} JoinWithoutMarks(parts: seq<string>, sep: string)
    requires forall i :: 0 <= i < |parts| ==> Count('?', parts[i]) == 0
    requires Count('?', sep) == 0
    ensures Count('?', Join(parts, sep)) == 0
    decreases |parts|
  {
    if |parts| > 1 {
      JoinWithoutMarks(parts[1..], sep);
      CountAppend('?', parts[0] + sep, Join(parts[1..], sep));
      CountAppend('?', parts[0], sep);
    }
  }

  /** A string without c has no occurrence of c. */
  lemma {:induction false} CountAbsent(c: char, s: string)
    requires forall i :: 0 <= i < |s| ==> s[i] != c
    ensures Count(c, s) == 0
  {
    if s != [] {
      CountAbsent(c, s[1..]);
    }
  }

  /** The statement text up to the placeholder list has no question mark. */
  lemma StatementHeadWithoutMarks(table: string, cols: string)
    requires Count('?', table) == 0 && Count('?', cols) == 0
    ensures Count('?', "INSERT INTO " + table + " (" + cols + ") VALUES (") == 0
  {
    var insert, open, values := "INSERT INTO ", " (", ") VALUES (";
    CountAbsent('?', insert);
    CountAbsent('?', open);
    CountAbsent('?', values);
    CountAppend('?', insert, table);
    CountAppend('?', insert + table, open);
    CountAppend('?', insert + table + open, cols);
    CountAppend('?', insert + table + open + cols, values);
  }

  /**
   * With a table and column names free of '?', the statement carries exactly
   * one placeholder per column.
   */
  lemma InsertQueryMarks(table: string, columns: seq<string>)
    requires Count('?', table) == 0
    requires forall i :: 0 <= i < |columns| ==> Count('?', columns[i]) == 0
    ensures Count('?', InsertQuery(table, columns)) == |columns|
  {
    var cols, marks := Join(columns, ", "), Join(Placeholders(|columns|), ", ");
    CountAbsent('?', ", ");
    JoinWithoutMarks(columns, ", ");
    StatementHeadWithoutMarks(table, cols);
    var head := "INSERT INTO " + table + " (" + cols + ") VALUES (";
    PlaceholderMarks(|columns|);
    CountAbsent('?', ")");
    CountAppend('?', head, marks);
    CountAppend('?', head + marks, ")");
  }

  // ---------------------------------------------------------------------------
  // noteFixtures

  datatype FixtureRow = FixtureRow(fixtureId: real, homeTeam: real, awayTeam: real, homeTeamScore: real, awayTeamScore: real)
  datatype ScoreRow = ScoreRow(fixtureId: real, team: real, score: real)
  datatype StatRow = StatRow(fixtureId: real, team: real, value: real)

  /** The contents of the fixtures, score, totalShots and ballPossession tables. */
  datatype Tables = Tables(fixtures: seq<FixtureRow>, scores: seq<ScoreRow>,
                           totalShots: seq<StatRow>, ballPossession: seq<StatRow>)

  /** The state of the database after a run, and what stopped the run, if anything did. */
  datatype Run = Run(tables: Tables, abort: Option<IngestError>)

  /** checkIfRowExists("fixtures", "fixtureId", id) against the stored rows. */
  predicate IdStored(fixtures: seq<FixtureRow>, id: real)
  {
    exists i :: 0 <= i < |fixtures| && fixtures[i].fixtureId == id
  }

  /** No fixture id is stored twice. */
  predicate DistinctFixtureIds(fixtures: seq<FixtureRow>)
  {
    forall i, j :: 0 <= i < j < |fixtures| ==> fixtures[i].fixtureId != fixtures[j].fixtureId
  }

  /** The fixture's status is the not-started code "NS". */
  predicate NotStarted(fixture: Json)
  {
    Field(fixture, "status").JObject? && Field(Field(fixture, "status"), "short") == JString("NS")
  }

  /** The decision noteFixtures takes for one fetched fixture. */
  datatype Admission = Skip | Admit(row: FixtureRow) | Crash

  /**
   * The guard chain of noteFixtures' loop body: a non-object is skipped; the
   * fixture id is asserted unchecked; a stored or not-started fixture is
   * skipped; the team and goal objects are asserted unchecked and their
   * numeric fields checked.
   */
  function FixtureAdmission(stored: seq<FixtureRow>, f: Json): (r: Admission)
    ensures !f.JObject? ==> r == Skip
    ensures f.JObject? && !(Field(f, "fixture").JObject? && Field(Field(f, "fixture"), "id").JNumber?) ==> r == Crash
    ensures r.Admit? ==>
              && Field(Field(Field(f, "teams"), "home"), "id") == JNumber(r.row.homeTeam)
              && Field(Field(Field(f, "teams"), "away"), "id") == JNumber(r.row.awayTeam)
              && Field(Field(f, "goals"), "home") == JNumber(r.row.homeTeamScore)
              && Field(Field(f, "goals"), "away") == JNumber(r.row.awayTeamScore)
    ensures r.Crash? ==> !Field(f, "teams").JObject? || !Field(f, "goals").JObject?
                         || !Field(Field(f, "teams"), "home").JObject? || !Field(Field(f, "teams"), "away").JObject?
                         || !Field(f, "fixture").JObject? || !Field(Field(f, "fixture"), "id").JNumber?
  {
    if !f.JObject? then Skip
    else
      var fixture := Field(f, "fixture");
      if !fixture.JObject? || !Field(fixture, "id").JNumber? then Crash
      else
        var id := Field(fixture, "id").n;
        if IdStored(stored, id) then Skip
        else if NotStarted(fixture) then Skip
        else
          var teams := Field(f, "teams");
          if !teams.JObject? || !Field(teams, "home").JObject? then Crash
          else if !Field(Field(teams, "home"), "id").JNumber? then Skip
          else if !Field(teams, "away").JObject? then Crash
          else if !Field(Field(teams, "away"), "id").JNumber? then Skip
          else
            var goals := Field(f, "goals");
            if !goals.JObject? then Crash
            else if !Field(goals, "home").JNumber? || !Field(goals, "away").JNumber? then Skip
            else
              Admit(FixtureRow(id, Field(Field(teams, "home"), "id").n, Field(Field(teams, "away"), "id").n,
                               Field(goals, "home").n, Field(goals, "away").n))
  }

  /** A fixture is recorded only if its id is not stored yet and it has started. */
  lemma AdmittedFixturesAreNewAndStarted(stored: seq<FixtureRow>, f: Json)
    requires FixtureAdmission(stored, f).Admit?
    ensures var id := FixtureAdmission(stored, f).row.fixtureId;
            && Field(Field(f, "fixture"), "id") == JNumber(id)
            && !IdStored(stored, id)
            && !NotStarted(Field(f, "fixture"))
  {
  }

  /** A well-identified fixture that is already stored, or not started, is skipped. */
  lemma StoredOrNotStartedIsSkipped(stored: seq<FixtureRow>, f: Json)
    requires f.JObject? && Field(f, "fixture").JObject? && Field(Field(f, "fixture"), "id").JNumber?
    requires IdStored(stored, Field(Field(f, "fixture"), "id").n) || NotStarted(Field(f, "fixture"))
    ensures FixtureAdmission(stored, f) == Skip
  {
  }

  /**
   * One fixture noted: the fixture row and both score rows are written before
   * the statistics are fetched, so a failed fetch or check stops the run with
   * the fixture recorded and its statistics missing.
   */
  function NoteOne(t: Tables, f: Json, fetch: real -> Option<seq<Json>>, parse: string -> Option<real>): (r: Run)
    ensures Extends(t, r.tables)
    ensures !FixtureAdmission(t.fixtures, f).Admit? ==> r.tables == t
    ensures FixtureAdmission(t.fixtures, f).Admit? ==>
              && r.tables.fixtures == t.fixtures + [FixtureAdmission(t.fixtures, f).row]
              && |r.tables.scores| == |t.scores| + 2
    ensures FixtureAdmission(t.fixtures, f).Admit? && r.abort.None? ==>
              |r.tables.totalShots| == |t.totalShots| + 2 && |r.tables.ballPossession| == |t.ballPossession| + 2
    ensures FixtureAdmission(t.fixtures, f).Admit? && r.abort.Some? ==>
              r.tables.totalShots == t.totalShots && r.tables.ballPossession == t.ballPossession
  {
    match FixtureAdmission(t.fixtures, f)
    case Skip => Run(t, None)
    case Crash => Run(t, Some(Panic))
    case Admit(row) =>
      var recorded := t.(fixtures := t.fixtures + [row],
                         scores := t.scores + [ScoreRow(row.fixtureId, row.homeTeam, row.homeTeamScore),
                                               ScoreRow(row.fixtureId, row.awayTeam, row.awayTeamScore)]);
      match AdditionalData(fetch(row.fixtureId), parse)
      case Failure(e) => Run(recorded, Some(e))
      case Success(e) =>
        Run(recorded.(totalShots := recorded.totalShots + [StatRow(row.fixtureId, e.side1.teamId, e.side1.totalShots),
                                                           StatRow(row.fixtureId, e.side2.teamId, e.side2.totalShots)],
                      ballPossession := recorded.ballPossession + [StatRow(row.fixtureId, e.side1.teamId, e.side1.ballPossession),
                                                                   StatRow(row.fixtureId, e.side2.teamId, e.side2.ballPossession)]),
            None)
  }

  /** The first n fixtures noted in order; the run stops at the first abort. */
  function NoteAll(t: Tables, fs: seq<Json>, n: nat, fetch: real -> Option<seq<Json>>, parse: string -> Option<real>): (r: Run)
    requires n <= |fs|
    ensures |r.tables.fixtures| <= |t.fixtures| + n
    ensures Extends(t, r.tables)
  {
    if n == 0 then Run(t, None)
    else
      var before := NoteAll(t, fs, n - 1, fetch, parse);
      if before.abort.Some? then before else NoteOne(before.tables, fs[n - 1], fetch, parse)
  }

  lemma {:induction false} AbortSticks(t: Tables, fs: seq<Json>, n: nat, m: nat,
                                       fetch: real -> Option<seq<Json>>, parse: string -> Option<real>)
    requires n <= m <= |fs|
    requires NoteAll(t, fs, n, fetch, parse).abort.Some?
    ensures NoteAll(t, fs, m, fetch, parse) == NoteAll(t, fs, n, fetch, parse)
    decreases m
  {
    if m > n {
      AbortSticks(t, fs, n, m - 1, fetch, parse);
    }
  }

  /** Noting one fixture keeps the stored fixture ids distinct. */
  lemma NoteOneKeepsIdsDistinct(t: Tables, f: Json, fetch: real -> Option<seq<Json>>, parse: string -> Option<real>)
    requires DistinctFixtureIds(t.fixtures)
    ensures DistinctFixtureIds(NoteOne(t, f, fetch, parse).tables.fixtures)
  {
    if FixtureAdmission(t.fixtures, f).Admit? {
      var row := FixtureAdmission(t.fixtures, f).row;
      AdmittedFixturesAreNewAndStarted(t.fixtures, f);
      var after := t.fixtures + [row];
      forall i, j | 0 <= i < j < |after| ensures after[i].fixtureId != after[j].fixtureId {
        if j == |t.fixtures| {
          assert after[i] == t.fixtures[i];
        }
      }
    }
  }

  /** However many fetched fixtures repeat an id, the fixtures table never holds it twice. */
  lemma {:induction false} NoteAllKeepsIdsDistinct(t: Tables, fs: seq<Json>, n: nat,
                                                   fetch: real -> Option<seq<Json>>, parse: string -> Option<real>)
    requires n <= |fs|
    requires DistinctFixtureIds(t.fixtures)
    ensures DistinctFixtureIds(NoteAll(t, fs, n, fetch, parse).tables.fixtures)
    decreases n
  {
    if n > 0 {
      NoteAllKeepsIdsDistinct(t, fs, n - 1, fetch, parse);
      var before := NoteAll(t, fs, n - 1, fetch, parse);
      if before.abort.None? {
        NoteOneKeepsIdsDistinct(before.tables, fs[n - 1], fetch, parse);
      }
    }
  }

  /** Every table only grows: the earlier rows stay, in order, in front. */
  ghost predicate Extends(t: Tables, u: Tables)
  {
    && t.fixtures <= u.fixtures && t.scores <= u.scores
    && t.totalShots <= u.totalShots && t.ballPossession <= u.ballPossession
  }

  /**
   * A run that is not stopped writes two score rows and two rows of each
   * statistic per recorded fixture, and changes no earlier row.
   */
  lemma {:induction false} NoteAllRowCounts(t: Tables, fs: seq<Json>, n: nat,
                                            fetch: real -> Option<seq<Json>>, parse: string -> Option<real>)
    requires n <= |fs|
    ensures var u := NoteAll(t, fs, n, fetch, parse).tables;
            Extends(t, u)
    ensures var r := NoteAll(t, fs, n, fetch, parse);
            r.abort.None? ==>
              && |r.tables.scores| - |t.scores| == 2 * (|r.tables.fixtures| - |t.fixtures|)
              && |r.tables.totalShots| - |t.totalShots| == 2 * (|r.tables.fixtures| - |t.fixtures|)
              && |r.tables.ballPossession| - |t.ballPossession| == 2 * (|r.tables.fixtures| - |t.fixtures|)
    decreases n
  {
    if n > 0 {
      NoteAllRowCounts(t, fs, n - 1, fetch, parse);
    }
  }

  /** The ingestion database: four append-only tables. */
  class FootballDb {
    var fixtures: seq<FixtureRow>
    var scores: seq<ScoreRow>
    var totalShots: seq<StatRow>
    var ballPossession: seq<StatRow>

    function Snapshot(): Tables
      reads this
    {
      Tables(fixtures, scores, totalShots, ballPossession)
    }

    constructor ()
      ensures Snapshot() == Tables([], [], [], [])
    {
      fixtures, scores, totalShots, ballPossession := [], [], [], [];
    }

    /** checkIfRowExists("fixtures", "fixtureId", id), scanning the stored rows. */
    method FixtureExists(id: real) returns (found: bool)
      ensures found <==> IdStored(fixtures, id)
    {
      var i := 0;
      while i < |fixtures|
        invariant 0 <= i <= |fixtures|
        invariant forall k :: 0 <= k < i ==> fixtures[k].fixtureId != id
      {
        if fixtures[i].fixtureId == id {
          return true;
        }
        i := i + 1;
      }
      return false;
    }

    /**
     * noteFixtures' loop body for one fetched fixture: the guard, the fixture
     * and score inserts, the statistics request (given as its decoded
     * response), and the four statistics inserts.
     */
    method NoteFixture(f: Json, fetch: real -> Option<seq<Json>>, parse: string -> Option<real>)
      returns (abort: Option<IngestError>)
      modifies this
      ensures Run(Snapshot(), abort) == NoteOne(old(Snapshot()), f, fetch, parse)
    {
      if !f.JObject? {
        return None;
      }
      var fixture := Field(f, "fixture");
      if !fixture.JObject? || !Field(fixture, "id").JNumber? {
        return Some(Panic);
      }
      var fixtureId := Field(fixture, "id").n;
      var stored := FixtureExists(fixtureId);
      if stored || NotStarted(fixture) {
        return None;
      }
      var teams := Field(f, "teams");
      if !teams.JObject? || !Field(teams, "home").JObject? {
        return Some(Panic);
      }
      if !Field(Field(teams, "home"), "id").JNumber? {
        return None;
      }
      if !Field(teams, "away").JObject? {
        return Some(Panic);
      }
      if !Field(Field(teams, "away"), "id").JNumber? {
        return None;
      }
      var goals := Field(f, "goals");
      if !goals.JObject? {
        return Some(Panic);
      }
      if !Field(goals, "home").JNumber? || !Field(goals, "away").JNumber? {
        return None;
      }
      var row := FixtureRow(fixtureId, Field(Field(teams, "home"), "id").n, Field(Field(teams, "away"), "id").n,
                            Field(goals, "home").n, Field(goals, "away").n);
      fixtures := fixtures + [row];
      scores := scores + [ScoreRow(row.fixtureId, row.homeTeam, row.homeTeamScore)];
      scores := scores + [ScoreRow(row.fixtureId, row.awayTeam, row.awayTeamScore)];
      var stats := GetAdditionalDataForFixture(fetch(row.fixtureId), parse);
      if stats.Failure? {
        abort := Some(stats.error);
        return;
      }
      var e := stats.value;
      totalShots := totalShots + [StatRow(row.fixtureId, e.side1.teamId, e.side1.totalShots)];
      ballPossession := ballPossession + [StatRow(row.fixtureId, e.side1.teamId, e.side1.ballPossession)];
      totalShots := totalShots + [StatRow(row.fixtureId, e.side2.teamId, e.side2.totalShots)];
      ballPossession := ballPossession + [StatRow(row.fixtureId, e.side2.teamId, e.side2.ballPossession)];
      abort := None;
    }

    /** noteFixtures: every fetched fixture in order, until one stops the run. */
    method NoteFixtures(fs: seq<Json>, fetch: real -> Option<seq<Json>>, parse: string -> Option<real>)
      returns (abort: Option<IngestError>)
      modifies this
      ensures Run(Snapshot(), abort) == NoteAll(old(Snapshot()), fs, |fs|, fetch, parse)
    {
      var i := 0;
      while i < |fs|
        invariant 0 <= i <= |fs|
        invariant NoteAll(old(Snapshot()), fs, i, fetch, parse) == Run(Snapshot(), None)
      {
        abort := NoteFixture(fs[i], fetch, parse);
        if abort.Some? {
          AbortSticks(old(Snapshot()), fs, i + 1, |fs|, fetch, parse);
          return;
        }
        i := i + 1;
      }
      abort := None;
    }
  }
}
