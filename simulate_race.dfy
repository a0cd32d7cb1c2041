/** src/simulate_race.py: one race of the configured season and round.
    The driver rows come from the Ergast results and qualifying entries
    (passed in; the HTTP calls are not modelled), the forms from the same
    season's history before the race date, missing qualifying times are
    filled from the field's slowest time, and the rows are ranked by the
    model's predicted position. */
module SimulateRace {
  import opened Tables
  import opened Sorting
  import opened QualiTime
  import opened Circuits
  import opened History
  import opened Frame

  const Season: int := 2025
  const RoundNo: int := 8

  /** One entry of the Ergast race results, grid already read as a number. */
  datatype ResultEntry = ResultEntry(driverId: string, givenName: string, familyName: string, team: string, grid: int)

  // -------------------------------------------------------- get_race_input

  /** The row built for one result entry: full name, constructor, grid, the
      best qualifying time and the race's circuit code. */
  function InputRow(r: ResultEntry, quali: seq<QualiEntry>, circuitCode: int): Row {
    GridRow(r.givenName + " " + r.familyName, r.grid).(
      driverId := Some(r.driverId),
      team := Some(r.team),
      qualifyingTime := BestTime(quali, r.driverId),
      circuitEncoded := Some(circuitCode))
  }

  /** The loop of `get_race_input` that appends one row per result entry. */
  method GetRaceInput(results: seq<ResultEntry>, quali: seq<QualiEntry>, circuitCode: int) returns (data: seq<Row>)
    ensures |data| == |results|
    ensures forall i :: 0 <= i < |results| ==> data[i] == InputRow(results[i], quali, circuitCode)
  {
    data := [];
    for i := 0 to |results|
      invariant RowsBuilt(results[..i], quali, circuitCode, data)
    {
      var r := results[i];
      var best := Minimum(Present(SessionTimes(FindEntry(quali, r.driverId))));
      var row := GridRow(r.givenName + " " + r.familyName, r.grid).(
        driverId := Some(r.driverId),
        team := Some(r.team),
        qualifyingTime := best,
        circuitEncoded := Some(circuitCode));
      assert row == InputRow(r, quali, circuitCode);
      RowsAppend(results[..i], r, quali, circuitCode, data, row);
      assert results[..i + 1] == results[..i] + [r];
      data := data + [row];
    }
    assert results[..|results|] == results;
  }

  /** `data` holds the input row of each of `results`, in order. */
  ghost predicate RowsBuilt(results: seq<ResultEntry>, quali: seq<QualiEntry>, circuitCode: int, data: seq<Row>) {
    && |data| == |results|
    && forall k :: 0 <= k < |results| ==> data[k] == InputRow(results[k], quali, circuitCode)
  }

  lemma RowsAppend(results: seq<ResultEntry>, r: ResultEntry, quali: seq<QualiEntry>, circuitCode: int,
                   data: seq<Row>, row: Row)
    requires RowsBuilt(results, quali, circuitCode, data) && row == InputRow(r, quali, circuitCode)
    ensures RowsBuilt(results + [r], quali, circuitCode, data + [row])
  {
  }

  /** Each input row carries the driver's best parsed Q1/Q2/Q3 time, missing
      exactly when the driver has no qualifying entry or none of its times parses. */
  lemma InputRowQualifying(r: ResultEntry, quali: seq<QualiEntry>, circuitCode: int)
    ensures var e := FindEntry(quali, r.driverId);
            var t := InputRow(r, quali, circuitCode).qualifyingTime;
            && (t.None? <==> e.None? || (TimeToSeconds(e.value.q1).None? && TimeToSeconds(e.value.q2).None? &&
                                         TimeToSeconds(e.value.q3).None?))
            && (t.Some? ==> Some(t.value) in [TimeToSeconds(e.value.q1), TimeToSeconds(e.value.q2), TimeToSeconds(e.value.q3)])
            && (forall x :: e.Some? && Some(x) in [TimeToSeconds(e.value.q1), TimeToSeconds(e.value.q2), TimeToSeconds(e.value.q3)]
                  ==> t.Some? && t.value <= x)
  {
    BestTimeSpec(quali, r.driverId);
  }

  // ------------------------------------------------- qualifying fallback

  function QualiTimes(rows: seq<Row>): seq<Option<real>> {
    Column(rows, (r: Row) => r.qualifyingTime)
  }

  /** pandas' `Series.max()`: the largest present value, missing when none is. */
  function MaxPresent(ts: seq<Option<real>>): (m: Option<real>)
    ensures m.None? <==> forall i :: 0 <= i < |ts| ==> ts[i].None?
    ensures m.Some? ==> Some(m.value) in ts
    ensures m.Some? ==> forall i :: 0 <= i < |ts| && ts[i].Some? ==> ts[i].value <= m.value
  {
    if ts == [] then None
    else
      var rest := MaxPresent(ts[1..]);
      assert forall i :: 1 <= i < |ts| ==> ts[i] == ts[1..][i - 1];
      match ts[0]
      case None => rest
      case Some(x) =>
        match rest
        case None => Some(x)
        case Some(y) => if x >= y then Some(x) else Some(y)
  }

  /** `max + 2` when some time is present, else 100.0. */
  function FallbackTime(ts: seq<Option<real>>): real {
    match MaxPresent(ts)
    case Some(m) => m + 2.0
    case None => 100.0
  }

  /** After the fill a present time is kept; a missing one becomes two seconds
      slower than the slowest present time, or 100.0 when no time is present;
      either way it is slower than every present time. */
  lemma FallbackSpec(ts: seq<Option<real>>, i: nat)
    requires i < |ts|
    ensures ts[i].Some? ==> Fill(ts[i], FallbackTime(ts)) == ts[i].value
    ensures ts[i].None? && (exists j :: 0 <= j < |ts| && ts[j].Some?) ==>
              exists j :: 0 <= j < |ts| && ts[j].Some? && Fill(ts[i], FallbackTime(ts)) == ts[j].value + 2.0 &&
                          forall k :: 0 <= k < |ts| && ts[k].Some? ==> ts[k].value <= ts[j].value
    ensures (forall j :: 0 <= j < |ts| ==> ts[j].None?) ==> Fill(ts[i], FallbackTime(ts)) == 100.0
    ensures ts[i].None? ==> forall k :: 0 <= k < |ts| && ts[k].Some? ==> ts[k].value < Fill(ts[i], FallbackTime(ts))
  {
    var m := MaxPresent(ts);
    if m.Some? {
      var j :| 0 <= j < |ts| && ts[j] == Some(m.value);
    }
  }

  // ---------------------------------------------------------- compute_form

  /** The forms before the 10.0 fill, as `compute_form`'s loop collects them. */
  function RawForms(r: Row, raceDate: int, hist: seq<RaceRecord>): (Option<real>, Option<real>) {
    (RollingForm(Past(hist, Driver(r.driver), raceDate)),
     RollingForm(Past(hist, Constructor(r.team), raceDate)))
  }

  /** The row `compute_form` returns, given the qualifying fallback time. */
  function FormedRow(r: Row, raceDate: int, hist: seq<RaceRecord>, fallback: real): Row {
    var driverForm := Form(Past(hist, Driver(r.driver), raceDate));
    r.(driverForm := Some(driverForm),
       constructorForm := Some(Form(Past(hist, Constructor(r.team), raceDate))),
       qualifyingTime := Some(Fill(r.qualifyingTime, fallback)),
       gridAdvantage := Some(r.grid as real - driverForm))
  }

  /** The `iterrows` loop of `compute_form`: each row's driver and
      constructor rolling forms, missing below three earlier races. */
  method CollectForms(frame: array<Row>, raceDate: int, hist: seq<RaceRecord>)
    returns (forms: seq<(Option<real>, Option<real>)>)
    ensures |forms| == frame.Length
    ensures forall k :: 0 <= k < frame.Length ==> forms[k] == RawForms(frame[k], raceDate, hist)
  {
    forms := [];
    for i := 0 to frame.Length
      invariant |forms| == i
      invariant forall k :: 0 <= k < i ==> forms[k] == RawForms(frame[k], raceDate, hist)
    {
      var row := frame[i];
      var driverPast := Past(hist, Driver(row.driver), raceDate);
      var constructorPast := Past(hist, Constructor(row.team), raceDate);
      var driverForm := if |driverPast| >= 3 then Some(Average(Positions(LatestThree(driverPast)))) else None;
      var constructorForm := if |constructorPast| >= 3 then Some(Average(Positions(LatestThree(constructorPast)))) else None;
      forms := forms + [(driverForm, constructorForm)];
    }
  }

  /** The two form columns, then `fillna(10.0, inplace=True)` on each. */
  method StoreForms(frame: array<Row>, forms: seq<(Option<real>, Option<real>)>)
    requires |forms| == frame.Length
    modifies frame
    ensures forall i :: 0 <= i < frame.Length ==>
              frame[i] == old(frame[i]).(driverForm := Some(Fill(forms[i].0, DefaultForm)),
                                         constructorForm := Some(Fill(forms[i].1, DefaultForm)))
  {
    forall i | 0 <= i < frame.Length {
      frame[i] := frame[i].(driverForm := forms[i].0, constructorForm := forms[i].1);
    }
    forall i | 0 <= i < frame.Length {
      frame[i] := frame[i].(driverForm := Some(Fill(frame[i].driverForm, 10.0)),
                            constructorForm := Some(Fill(frame[i].constructorForm, 10.0)));
    }
  }

  /** The qualifying fallback: every missing time becomes the fallback time. */
  method FillQualifying(frame: array<Row>)
    modifies frame
    ensures forall i :: 0 <= i < frame.Length ==>
              frame[i] == old(frame[i]).(qualifyingTime := Some(Fill(old(frame[i]).qualifyingTime, FallbackTime(QualiTimes(old(frame[..]))))))
  {
    var fallback := FallbackTime(QualiTimes(frame[..]));
    forall i | 0 <= i < frame.Length {
      frame[i] := frame[i].(qualifyingTime := Some(Fill(frame[i].qualifyingTime, fallback)));
    }
  }

  /** `compute_form(df_input, race_date, df_hist_season)`: the form loop, the
      two form columns, their 10.0 fill, the qualifying fallback and the grid
      advantage, all in place. */
  method ComputeForm(frame: array<Row>, raceDate: int, hist: seq<RaceRecord>)
    modifies frame
    ensures forall i :: 0 <= i < frame.Length ==>
              frame[i] == FormedRow(old(frame[i]), raceDate, hist, FallbackTime(QualiTimes(old(frame[..]))))
  {
    ghost var input := frame[..];
    var forms := CollectForms(frame, raceDate, hist);
    StoreForms(frame, forms);
    ghost var stored := frame[..];
    ColumnPointwise(stored, input, (r: Row) => r.qualifyingTime);
    ghost var fallback := FallbackTime(QualiTimes(input));
    assert fallback == FallbackTime(QualiTimes(stored));
    FillQualifying(frame);
    ghost var filled := frame[..];
    AddGridAdvantage(frame);
    forall i | 0 <= i < frame.Length
      ensures frame[i] == FormedRow(input[i], raceDate, hist, fallback)
    {
      assert forms[i] == RawForms(input[i], raceDate, hist);
      assert stored[i] == input[i].(driverForm := Some(Fill(forms[i].0, DefaultForm)),
                                    constructorForm := Some(Fill(forms[i].1, DefaultForm)));
      assert filled[i] == stored[i].(qualifyingTime := Some(Fill(stored[i].qualifyingTime, fallback)));
      FormedRowSteps(input[i], raceDate, hist, fallback);
    }
  }

  /** The column steps of `compute_form`, applied to one row, give its formed row. */
  lemma FormedRowSteps(r: Row, raceDate: int, hist: seq<RaceRecord>, fallback: real)
    ensures var forms := RawForms(r, raceDate, hist);
            WithGridAdvantage(r.(driverForm := Some(Fill(forms.0, DefaultForm)),
                                 constructorForm := Some(Fill(forms.1, DefaultForm)),
                                 qualifyingTime := Some(Fill(r.qualifyingTime, fallback))))
            == FormedRow(r, raceDate, hist, fallback)
  {
  }

  /** Every row leaves `compute_form` ready for the model: both forms are the
      rolling form over the season's earlier races with the 10.0 default, no
      qualifying time is missing, a present one is unchanged, and the grid
      advantage is grid minus the filled driver form. */
  lemma FormedRowSpec(r: Row, raceDate: int, hist: seq<RaceRecord>, fallback: real)
    requires r.circuitEncoded.Some?
    ensures Ready(FormedRow(r, raceDate, hist, fallback))
    ensures FormedRow(r, raceDate, hist, fallback).qualifyingTime.Some?
    ensures r.qualifyingTime.Some? ==> FormedRow(r, raceDate, hist, fallback).qualifyingTime == r.qualifyingTime
    ensures var f := FormedRow(r, raceDate, hist, fallback);
            f.gridAdvantage.value == f.grid as real - f.driverForm.value
    ensures var past := Past(hist, Driver(r.driver), raceDate);
            var f := FormedRow(r, raceDate, hist, fallback);
            && (|past| < FormWindow ==> f.driverForm.value == DefaultForm)
            && (|past| >= FormWindow ==> f.driverForm.value == Average(Positions(LatestThree(past))))
    ensures var past := Past(hist, Constructor(r.team), raceDate);
            var f := FormedRow(r, raceDate, hist, fallback);
            && (|past| < FormWindow ==> f.constructorForm.value == DefaultForm)
            && (|past| >= FormWindow ==> f.constructorForm.value == Average(Positions(LatestThree(past))))
  {
    FormSpec(Past(hist, Driver(r.driver), raceDate));
    FormSpec(Past(hist, Constructor(r.team), raceDate));
  }

  // ------------------------------------------------------------------ main

  /** The history row of the configured race (`race_row`), the first one. */
  function RaceRowOf(hist: seq<RaceRecord>): (r: RaceRecord)
    requires exists i :: 0 <= i < |hist| && hist[i].season == Season && hist[i].round == RoundNo
    ensures r in hist && r.season == Season && r.round == RoundNo
    ensures exists i :: 0 <= i < |hist| && hist[i] == r &&
                        forall j :: 0 <= j < i ==> !(hist[j].season == Season && hist[j].round == RoundNo)
  {
    var found := FirstWhere(hist, (r: RaceRecord) => r.season == Season && r.round == RoundNo);
    found.value
  }

  function CircuitColumn(hist: seq<RaceRecord>): seq<string> {
    Column(hist, (r: RaceRecord) => r.circuit)
  }

  /** The rows `get_race_input` returns for the configured race. */
  function InputRows(hist: seq<RaceRecord>, results: seq<ResultEntry>, quali: seq<QualiEntry>): seq<Row>
    requires exists i :: 0 <= i < |hist| && hist[i].season == Season && hist[i].round == RoundNo
  {
    var code := EncodeCircuit(RaceRowOf(hist).circuit, CircuitColumn(hist));
    seq(|results|, i requires 0 <= i < |results| => InputRow(results[i], quali, code))
  }

  /** The frame `compute_form` returns for the given input rows. */
  function Prepared(input: seq<Row>, raceDate: int, season: seq<RaceRecord>): (rows: seq<Row>)
    ensures |rows| == |input|
  {
    var fallback := FallbackTime(QualiTimes(input));
    seq(|input|, i requires 0 <= i < |input| => FormedRow(input[i], raceDate, season, fallback))
  }

  /** The frame `compute_form` hands to `predict_race`. */
  function PreparedRows(hist: seq<RaceRecord>, results: seq<ResultEntry>, quali: seq<QualiEntry>): seq<Row>
    requires exists i :: 0 <= i < |hist| && hist[i].season == Season && hist[i].round == RoundNo
  {
    var raceDate := RaceRowOf(hist).date;
    Prepared(InputRows(hist, results, quali), raceDate, SeasonBefore(hist, Season, raceDate))
  }

  /** Rows with a circuit code leave `compute_form` ready for the model and
      with a qualifying time. */
  lemma PreparedFromReady(input: seq<Row>, raceDate: int, season: seq<RaceRecord>)
    requires forall i :: 0 <= i < |input| ==> input[i].circuitEncoded.Some?
    ensures AllReady(Prepared(input, raceDate, season))
    ensures forall i :: 0 <= i < |input| ==> Prepared(input, raceDate, season)[i].qualifyingTime.Some?
  {
    var fallback := FallbackTime(QualiTimes(input));
    forall i | 0 <= i < |input|
      ensures Ready(FormedRow(input[i], raceDate, season, fallback))
      ensures FormedRow(input[i], raceDate, season, fallback).qualifyingTime.Some?
    {
      FormedRowSpec(input[i], raceDate, season, fallback);
    }
  }

  /** The prepared rows are ready for the model. */
  lemma PreparedReady(hist: seq<RaceRecord>, results: seq<ResultEntry>, quali: seq<QualiEntry>)
    requires exists i :: 0 <= i < |hist| && hist[i].season == Season && hist[i].round == RoundNo
    ensures |PreparedRows(hist, results, quali)| == |results|
    ensures AllReady(PreparedRows(hist, results, quali))
    ensures forall i :: 0 <= i < |results| ==> PreparedRows(hist, results, quali)[i].qualifyingTime.Some?
  {
    var raceDate := RaceRowOf(hist).date;
    PreparedFromReady(InputRows(hist, results, quali), raceDate, SeasonBefore(hist, Season, raceDate));
  }

  /** `compute_form` on a fresh frame holding the input rows. */
  method Prepare(data: seq<Row>, raceDate: int, histSeason: seq<RaceRecord>) returns (frame: array<Row>)
    ensures fresh(frame)
    ensures frame[..] == Prepared(data, raceDate, histSeason)
  {
    frame := new Row[|data|](i requires 0 <= i < |data| => data[i]);
    assert frame[..] == data;
    ComputeForm(frame, raceDate, histSeason);
    ghost var prepared := Prepared(data, raceDate, histSeason);
    assert frame[..] == prepared by {
      forall i | 0 <= i < frame.Length ensures frame[i] == prepared[i] { }
    }
  }

  /** The script's main block: the race row, its circuit code among all
      circuits of the history, the same-season history before the race, the
      input rows, their forms, then prediction and ranking. */
  method Run(hist: seq<RaceRecord>, results: seq<ResultEntry>, quali: seq<QualiEntry>, predict: Predictor)
    returns (result: array<Row>)
    requires exists i :: 0 <= i < |hist| && hist[i].season == Season && hist[i].round == RoundNo
    ensures fresh(result)
    ensures result[..] == Ranked(WithPredictions(PreparedRows(hist, results, quali), predict))
  {
    var raceRow := RaceRowOf(hist);
    var raceDate := raceRow.date;
    var circuitCode := EncodeCircuit(raceRow.circuit, CircuitColumn(hist));
    var histSeason := SeasonBefore(hist, Season, raceDate);

    var data := GetRaceInput(results, quali, circuitCode);
    assert data == InputRows(hist, results, quali);
    var frame := Prepare(data, raceDate, histSeason);
    PreparedReady(hist, results, quali);
    result := PredictAndRank(frame, predict);
  }
}
