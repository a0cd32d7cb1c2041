/** src/app.py: the Streamlit predictor for a completed 2025 round. The
    selected round name is looked up in the calendar, the sessions' tables
    are passed in (None when loading failed), the frame is prepared and
    ranked as in `LiveRace`, then joined with the actual result to score
    each prediction. */
module App {
  import opened Tables
  import opened Sorting
  import opened History
  import opened Frame
  import opened LiveRace

  const Season: int := 2025

  /** `rounds_map`, in insertion order. */
  const RoundsMap: seq<(int, string)> := [
    (1, "Australia"), (2, "China"), (3, "Japan"), (4, "Bahrain"),
    (5, "Saudi Arabia"), (6, "Miami"), (7, "Emilia-Romagna"), (8, "Monaco"),
    (9, "Spain"), (10, "Canada"), (11, "Austria"), (12, "United Kingdom"),
    (13, "Belgium"), (14, "Hungary"), (15, "Netherlands"), (16, "Italy"),
    (17, "Azerbaijan"), (18, "Singapore"), (19, "USA"), (20, "Mexico"),
    (21, "Brazil"), (22, "Las Vegas"), (23, "Qatar"), (24, "Abu Dhabi")]

  /** `list(rounds_map.values())`, the options of the select box. */
  function RoundNames(): seq<string> {
    Column(RoundsMap, (e: (int, string)) => e.1)
  }

  /** `[k for k, v in rounds_map.items() if v == name][0]`. */
  function RoundOf(name: string): int
    requires exists i :: 0 <= i < |RoundsMap| && RoundsMap[i].1 == name
  {
    KeyOf(RoundsMap, name)
  }

  /** The key of the first entry of `table` whose value is `name`. */
  function KeyOf(table: seq<(int, string)>, name: string): int
    requires exists i :: 0 <= i < |table| && table[i].1 == name
  {
    FirstWhere(table, (e: (int, string)) => e.1 == name).value.0
  }

  /** With distinct values, the key found for a value is the one key paired
      with it. */
  lemma KeyOfDistinct(table: seq<(int, string)>, name: string, k: int)
    requires forall i, j :: 0 <= i < j < |table| ==> table[i].1 != table[j].1
    requires exists i :: 0 <= i < |table| && table[i].1 == name
    ensures KeyOf(table, name) == k <==> (k, name) in table
  {
    var f := FirstWhere(table, (e: (int, string)) => e.1 == name);
    var m :| 0 <= m < |table| && table[m] == f.value && f.value.1 == name;
    if (k, name) in table {
      var i :| 0 <= i < |table| && table[i] == (k, name);
      assert i == m;
    }
  }

  /** The calendar numbers the rounds 1 to 24 in order. */
  lemma CalendarKeys()
    ensures |RoundsMap| == 24
    ensures forall i :: 0 <= i < |RoundsMap| ==> RoundsMap[i].0 == i + 1
  {
  }

  /** No two rounds share a name. */
  lemma CalendarNamesDistinct()
    ensures forall i, j :: 0 <= i < j < |RoundsMap| ==> RoundsMap[i].1 != RoundsMap[j].1
  {
    forall i, j | 0 <= i < j < |RoundsMap| ensures RoundsMap[i].1 != RoundsMap[j].1 {
      NamesDiffer(i, j);
    }
  }

  /** Two different calendar slots differ in length or in one of their first
      two letters. */
  lemma NamesDiffer(i: nat, j: nat)
    requires i < j < |RoundsMap|
    ensures RoundsMap[i].1 != RoundsMap[j].1
  {
    var a, b := RoundsMap[i].1, RoundsMap[j].1;
    assert |a| != |b| || a[0] != b[0] || a[1] != b[1];
  }

  /** The round of a selected name is the one round the calendar gives that name. */
  lemma RoundOfSpec(name: string, k: int)
    requires exists i :: 0 <= i < |RoundsMap| && RoundsMap[i].1 == name
    ensures RoundOf(name) == k <==> (k, name) in RoundsMap
  {
    CalendarNamesDistinct();
    KeyOfDistinct(RoundsMap, name, k);
  }

  /** Selecting the name in slot i of the select box gives round i + 1. */
  lemma RoundOfSlot(i: nat)
    requires i < |RoundsMap|
    ensures RoundNames()[i] == RoundsMap[i].1
    ensures RoundOf(RoundNames()[i]) == i + 1
  {
    CalendarKeys();
    CalendarNamesDistinct();
    KeyAtSlot(RoundsMap, i);
  }

  /** With distinct values, looking up the value in slot i gives slot i's key. */
  lemma KeyAtSlot(table: seq<(int, string)>, i: nat)
    requires forall i, j :: 0 <= i < j < |table| ==> table[i].1 != table[j].1
    requires i < |table|
    ensures Column(table, (e: (int, string)) => e.1)[i] == table[i].1
    ensures KeyOf(table, Column(table, (e: (int, string)) => e.1)[i]) == table[i].0
  {
    ColumnAt(table, (e: (int, string)) => e.1, i);
    KeyOfDistinct(table, table[i].1, table[i].0);
  }

  /** The select box's default (index 7) is Monaco, round 8. */
  lemma DefaultSelection()
    ensures RoundsMap[7].1 == "Monaco"
    ensures RoundNames()[7] == "Monaco"
    ensures RoundOf("Monaco") == 8
  {
    RoundOfSlot(7);
  }

  // ------------------------------------------------------- actual results

  /** One row of the race session's results, the driver's full name already
      looked up from the abbreviation. */
  datatype ResultRow = ResultRow(driver: string, gridPosition: int, position: int)

  /** What the loaded sessions provide. */
  datatype Sessions = Sessions(results: seq<ResultRow>, bestLaps: seq<(string, real)>, weather: seq<Weather>)

  /** `session_r.results[['Abbreviation', 'GridPosition']]` as (driver, grid). */
  function GridData(results: seq<ResultRow>): seq<(string, int)> {
    Column(results, (r: ResultRow) => (r.driver, r.gridPosition))
  }

  /** `actual_positions[['driver', 'actual_position']]`. */
  function ActualPositions(results: seq<ResultRow>): seq<(string, int)> {
    Column(results, (r: ResultRow) => (r.driver, r.position))
  }

  function PutActual(r: Row, a: Option<int>): Row {
    r.(actual := a)
  }

  /** `simulated_finish - actual_position`, missing when either is. */
  function ErrorOf(r: Row): Option<int> {
    if r.finish.Some? && r.actual.Some? then Some(r.finish.value - r.actual.value) else None
  }

  /** The ranked frame joined with the actual result and its error column. */
  function Scored(ranked: seq<Row>, results: seq<ResultRow>): seq<Row> {
    var merged := LeftMerge(ranked, ActualPositions(results), PutActual);
    seq(|merged|, i requires 0 <= i < |merged| => merged[i].(error := ErrorOf(merged[i])))
  }

  /** With one result row per driver, scoring keeps the ranked rows in order;
      a driver found in the result gets error = simulated finish - actual
      position, and one not found keeps a missing actual position and error. */
  lemma ScoredSpec(ranked: seq<Row>, results: seq<ResultRow>)
    requires DistinctKeys(ActualPositions(results))
    requires forall i :: 0 <= i < |ranked| ==> ranked[i].finish.Some?
    ensures |Scored(ranked, results)| == |ranked|
    ensures forall i :: 0 <= i < |ranked| ==>
              var s := Scored(ranked, results)[i];
              && s.driver == ranked[i].driver && s.finish == ranked[i].finish
              && (forall p :: s.actual == Some(p) <==> (ranked[i].driver, p) in ActualPositions(results))
              && (s.error.Some? <==> s.actual.Some?)
              && (s.error.Some? ==> s.error.value == ranked[i].finish.value - s.actual.value)
  {
    var actual := ActualPositions(results);
    LeftMergeDistinct(ranked, actual, PutActual);
    forall i, p | 0 <= i < |ranked| {
      LookupDistinct(actual, ranked[i].driver, p);
    }
  }

  // ----------------------------------------------------------- error class

  datatype ErrorClass = Accurate | Close | Off

  /** The plot's `error_class`: within one place, within three, or further
      off; a missing error fails both comparisons. */
  function ClassOf(error: Option<int>): ErrorClass {
    match error
    case None => Off
    case Some(e) => if -1 <= e <= 1 then Accurate else if -3 <= e <= 3 then Close else Off
  }

  function Abs(x: int): nat {
    if x < 0 then -x else x
  }

  /** The three classes by the size of the error, each both ways. */
  lemma ClassOfSpec(error: Option<int>)
    ensures ClassOf(error) == Accurate <==> error.Some? && Abs(error.value) <= 1
    ensures ClassOf(error) == Close <==> error.Some? && 1 < Abs(error.value) <= 3
    ensures ClassOf(error) == Off <==> error.None? || Abs(error.value) > 3
  {
  }

  function Severity(c: ErrorClass): nat {
    match c
    case Accurate => 0
    case Close => 1
    case Off => 2
  }

  /** A larger error never gets a better class. */
  lemma ClassMonotone(e1: int, e2: int)
    requires Abs(e1) <= Abs(e2)
    ensures Severity(ClassOf(Some(e1))) <= Severity(ClassOf(Some(e2)))
  {
  }

  /** `sort_values('actual_position')` order: ascending, missing last. */
  predicate ActualLe(a: Row, b: Row) {
    match (a.actual, b.actual)
    case (Some(x), Some(y)) => x <= y
    case (Some(_), None) => true
    case (None, Some(_)) => false
    case (None, None) => true
  }

  function ByActual(): (Row, Row) -> bool {
    (a: Row, b: Row) => ActualLe(a, b)
  }

  /** The plotted frame: the scored rows by actual position, each with its class. */
  function Plotted(scored: seq<Row>): seq<(Row, ErrorClass)> {
    Column(SortBy(scored, ByActual()), (r: Row) => (r, ClassOf(r.error)))
  }

  /** The plot shows the same rows, ascending by actual position, each
      classed by its own error. */
  lemma PlottedSpec(scored: seq<Row>)
    ensures |Plotted(scored)| == |scored|
    ensures multiset(Column(Plotted(scored), (p: (Row, ErrorClass)) => p.0)) == multiset(scored)
    ensures forall i :: 0 <= i < |scored| ==> Plotted(scored)[i].1 == ClassOf(Plotted(scored)[i].0.error)
    ensures forall i, j :: 0 <= i < j < |scored| ==> ActualLe(Plotted(scored)[i].0, Plotted(scored)[j].0)
  {
    var sorted := SortBy(scored, ByActual());
    var f := (r: Row) => (r, ClassOf(r.error));
    var plotted := Plotted(scored);
    var first := (p: (Row, ErrorClass)) => p.0;
    assert TotalPreorder(ByActual());
    SortBySorted(scored, ByActual());
    forall i | 0 <= i < |scored| ensures plotted[i] == f(sorted[i]) {
      ColumnAt(sorted, f, i);
    }
    assert Column(plotted, first) == sorted by {
      forall i | 0 <= i < |scored| ensures Column(plotted, first)[i] == sorted[i] {
        ColumnAt(plotted, first, i);
      }
    }
  }

  // ------------------------------------------------------------------- run

  datatype Outcome =
    | DataUnavailable                                         // the warning and `st.stop()`
    | Simulated(table: seq<Row>, plot: seq<(Row, ErrorClass)>)

  /** `hist_df['season'] = season` on a whole table. */
  function WithSeason(rs: seq<RaceRecord>, season: int): seq<RaceRecord> {
    Column(rs, (r: RaceRecord) => r.(season := season))
  }

  /** The history the app reads: both feature files, their seasons overwritten, concatenated. */
  function AppHistory(hist2024: seq<RaceRecord>, hist2025: seq<RaceRecord>): seq<RaceRecord> {
    WithSeason(hist2024, 2024) + WithSeason(hist2025, 2025)
  }

  /** Every row of the combined history carries the season of its file. */
  lemma AppHistorySeasons(hist2024: seq<RaceRecord>, hist2025: seq<RaceRecord>)
    ensures |AppHistory(hist2024, hist2025)| == |hist2024| + |hist2025|
    ensures forall i :: 0 <= i < |hist2024| ==> AppHistory(hist2024, hist2025)[i] == hist2024[i].(season := 2024)
    ensures forall i :: 0 <= i < |hist2025| ==> AppHistory(hist2024, hist2025)[|hist2024| + i] == hist2025[i].(season := 2025)
  {
    var f := (r: RaceRecord) => r.(season := 2024);
    var g := (r: RaceRecord) => r.(season := 2025);
    forall i | 0 <= i < |hist2024| ensures WithSeason(hist2024, 2024)[i] == f(hist2024[i]) {
      ColumnAt(hist2024, f, i);
    }
    forall i | 0 <= i < |hist2025| ensures WithSeason(hist2025, 2025)[i] == g(hist2025[i]) {
      ColumnAt(hist2025, g, i);
    }
  }

  /** The ranked frame for the selected round. */
  function AppRanked(round: int, s: Sessions, hist: seq<RaceRecord>, today: int, predict: Predictor): seq<Row>
    requires s.weather != []
  {
    var prepared := LivePrepared(GridData(s.results), s.bestLaps, s.weather, hist, Season, round, today);
    LivePreparedReady(GridData(s.results), s.bestLaps, s.weather, hist, Season, round, today);
    Ranked(WithPredictions(prepared, predict))
  }

  lemma LivePreparedReady(gridData: seq<(string, int)>, bestLaps: seq<(string, real)>, samples: seq<Weather>,
                          hist: seq<RaceRecord>, season: int, round: int, today: int)
    requires samples != []
    ensures AllReady(LivePrepared(gridData, bestLaps, samples, hist, season, round, today))
  {
    var merged := MergeQualifying(gridData, bestLaps);
    var raceDate := RaceDate(hist, season, round, today);
    forall i | 0 <= i < |merged| ensures Ready(LiveRow(merged[i], samples[0], hist, raceDate, round)) {
      LiveRowSpec(merged[i], samples[0], hist, raceDate, round);
    }
  }

  /** Adds the error column to the joined frame in place. */
  method AddErrors(frame: array<Row>)
    modifies frame
    ensures forall i :: 0 <= i < frame.Length ==> frame[i] == old(frame[i]).(error := ErrorOf(old(frame[i])))
  {
    forall i | 0 <= i < frame.Length {
      frame[i] := frame[i].(error := ErrorOf(frame[i]));
    }
  }

  /** The actual-result join and the error column, on a new frame. */
  method ScoreRanking(ranked: array<Row>, results: seq<ResultRow>) returns (table: seq<Row>)
    ensures table == Scored(ranked[..], results)
  {
    var merged := LeftMerge(ranked[..], ActualPositions(results), PutActual);
    var joined := new Row[|merged|](i requires 0 <= i < |merged| => merged[i]);
    ghost var before := joined[..];
    assert before == merged;
    AddErrors(joined);
    ghost var scored := Scored(ranked[..], results);
    forall i | 0 <= i < joined.Length ensures joined[i] == scored[i] {
      assert joined[i] == before[i].(error := ErrorOf(before[i]));
    }
    table := joined[..];
  }

  /** What pressing "Simulate Race" does for the selected round: nothing but
      the warning when the sessions could not be loaded; otherwise the
      prepared frame ranked by the model, the error table and the plot. */
  method Run(selected: string, sessions: Option<Sessions>, hist2024: seq<RaceRecord>, hist2025: seq<RaceRecord>,
             today: int, predict: Predictor) returns (out: Outcome)
    requires exists i :: 0 <= i < |RoundsMap| && RoundsMap[i].1 == selected
    requires sessions.Some? ==> sessions.value.weather != []
    ensures sessions.None? <==> out == DataUnavailable
    ensures sessions.Some? ==>
              var ranked := AppRanked(RoundOf(selected), sessions.value, AppHistory(hist2024, hist2025), today, predict);
              var table := Scored(ranked, sessions.value.results);
              out == Simulated(table, Plotted(table))
  {
    if sessions.None? {
      return DataUnavailable;
    }
    var table := SimulateRound(RoundOf(selected), sessions.value, AppHistory(hist2024, hist2025), today, predict);
    out := Simulated(table, Plotted(table));
  }

  /** The body after the sessions have loaded: the prepared frame, its
      ranking by the model, and the error table. */
  method SimulateRound(round: int, s: Sessions, hist: seq<RaceRecord>, today: int, predict: Predictor)
    returns (table: seq<Row>)
    requires s.weather != []
    ensures table == Scored(AppRanked(round, s, hist, today, predict), s.results)
  {
    var frame := PrepareFrame(GridData(s.results), s.bestLaps, s.weather, hist, Season, round, today);
    LivePreparedReady(GridData(s.results), s.bestLaps, s.weather, hist, Season, round, today);
    var ranked := PredictAndRank(frame, predict);
    table := ScoreRanking(ranked, s.results);
  }
}
