/** The frame preparation that src/app.py (lines 66-117) and
    src/simulate_race_2025.py (lines 28-89) share: the grid left-merged with
    each driver's best quick qualifying lap, the first qualifying weather
    reading on every row, the race date, the driver and constructor forms
    over the whole history, the grid advantage and the round number as the
    circuit code. Unlike src/simulate_race.py these scripts have no
    qualifying fallback, so a driver without a quick lap reaches the model
    with a missing qualifying time. */
module LiveRace {
  import opened Tables
  import opened Sorting
  import opened History
  import opened Frame

  // ----------------------------------------------------- grid and laps

  /** `grid_data[['driver', 'grid']]` as a frame. */
  function GridFrame(gridData: seq<(string, int)>): seq<Row> {
    Column(gridData, (e: (string, int)) => GridRow(e.0, e.1))
  }

  function PutQualifying(r: Row, t: Option<real>): Row {
    r.(qualifyingTime := t)
  }

  /** `pd.merge(grid_data, best_laps, on='driver', how='left')`. */
  function MergeQualifying(gridData: seq<(string, int)>, bestLaps: seq<(string, real)>): seq<Row> {
    LeftMerge(GridFrame(gridData), bestLaps, PutQualifying)
  }

  /** With one best lap per driver, the merge keeps every grid driver once,
      in grid order, with its grid slot and its best lap; the time is missing
      exactly for a driver without a quick lap. */
  lemma MergeQualifyingSpec(gridData: seq<(string, int)>, bestLaps: seq<(string, real)>)
    requires DistinctKeys(bestLaps)
    ensures |MergeQualifying(gridData, bestLaps)| == |gridData|
    ensures forall i :: 0 <= i < |gridData| ==>
              var r := MergeQualifying(gridData, bestLaps)[i];
              && r.driver == gridData[i].0
              && r.grid == gridData[i].1
              && r.qualifyingTime == Lookup(bestLaps, gridData[i].0)
              && (r.qualifyingTime.None? <==> forall j :: 0 <= j < |bestLaps| ==> bestLaps[j].0 != gridData[i].0)
              && (forall t :: r.qualifyingTime == Some(t) <==> (gridData[i].0, t) in bestLaps)
  {
    var left := GridFrame(gridData);
    LeftMergeDistinct(left, bestLaps, PutQualifying);
    forall i | 0 <= i < |gridData| ensures left[i] == GridRow(gridData[i].0, gridData[i].1) {
      ColumnAt(gridData, (e: (string, int)) => GridRow(e.0, e.1), i);
    }
    forall i, t | 0 <= i < |gridData| {
      LookupDistinct(bestLaps, gridData[i].0, t);
    }
  }

  // ---------------------------------------------------------------- weather

  /** `weather_row = weather_data.iloc[0]` and its three columns on every row. */
  method AttachWeather(frame: array<Row>, samples: seq<Weather>)
    requires samples != []
    modifies frame
    ensures forall i :: 0 <= i < frame.Length ==> frame[i] == old(frame[i]).(weather := Some(samples[0]))
  {
    var first := samples[0];
    forall i | 0 <= i < frame.Length {
      frame[i] := frame[i].(weather := Some(first));
    }
  }

  // ------------------------------------------------------------------ forms

  /** The driver form of these scripts: 10.0 below three earlier races. */
  function DriverForm(hist: seq<RaceRecord>, driver: string, raceDate: int): real {
    Form(Past(hist, Driver(driver), raceDate))
  }

  /** The constructor form, over the team of the driver's first history row. */
  function ConstructorForm(hist: seq<RaceRecord>, driver: string, raceDate: int): real {
    Form(Past(hist, Constructor(ConstructorOf(hist, driver)), raceDate))
  }

  /** The `iterrows` loop that fills `driver_forms` and `constructor_forms`. */
  method CollectForms(frame: array<Row>, hist: seq<RaceRecord>, raceDate: int)
    returns (driverForms: seq<real>, constructorForms: seq<real>)
    ensures |driverForms| == |constructorForms| == frame.Length
    ensures forall k :: 0 <= k < frame.Length ==>
              driverForms[k] == DriverForm(hist, frame[k].driver, raceDate) &&
              constructorForms[k] == ConstructorForm(hist, frame[k].driver, raceDate)
  {
    driverForms, constructorForms := [], [];
    for i := 0 to frame.Length
      invariant |driverForms| == |constructorForms| == i
      invariant FormsOfRows(frame[..i], hist, raceDate, driverForms, constructorForms)
    {
      var driverForm, constructorForm := RowForms(hist, frame[i].driver, raceDate);
      FormsAppend(frame[..i], frame[i], hist, raceDate, driverForms, constructorForms, driverForm, constructorForm);
      assert frame[..i + 1] == frame[..i] + [frame[i]];
      driverForms := driverForms + [driverForm];
      constructorForms := constructorForms + [constructorForm];
    }
    assert frame[..frame.Length] == frame[..];
  }

  /** `driverForms` and `constructorForms` hold the forms of `rows`' drivers, row by row. */
  ghost predicate FormsOfRows(rows: seq<Row>, hist: seq<RaceRecord>, raceDate: int,
                              driverForms: seq<real>, constructorForms: seq<real>)
  {
    && |driverForms| == |constructorForms| == |rows|
    && forall k :: 0 <= k < |rows| ==>
         driverForms[k] == DriverForm(hist, rows[k].driver, raceDate) &&
         constructorForms[k] == ConstructorForm(hist, rows[k].driver, raceDate)
  }

  lemma FormsAppend(rows: seq<Row>, r: Row, hist: seq<RaceRecord>, raceDate: int,
                    driverForms: seq<real>, constructorForms: seq<real>, d: real, c: real)
    requires FormsOfRows(rows, hist, raceDate, driverForms, constructorForms)
    requires d == DriverForm(hist, r.driver, raceDate) && c == ConstructorForm(hist, r.driver, raceDate)
    ensures FormsOfRows(rows + [r], hist, raceDate, driverForms + [d], constructorForms + [c])
  {
  }

  /** One pass of the loop: the driver's team from its first history row,
      the races of the driver and of the team before the race date, and the
      mean of the latest three finishes of each, 10.0 below three races. */
  method RowForms(hist: seq<RaceRecord>, driver: string, raceDate: int)
    returns (driverForm: real, constructorForm: real)
    ensures driverForm == DriverForm(hist, driver, raceDate)
    ensures constructorForm == ConstructorForm(hist, driver, raceDate)
  {
    var team := ConstructorOf(hist, driver);
    var pastDriver := Past(hist, Driver(driver), raceDate);
    var pastConstructor := Past(hist, Constructor(team), raceDate);
    driverForm := if |pastDriver| >= 3 then Average(Positions(LatestThree(pastDriver))) else 10.0;
    constructorForm := if |pastConstructor| >= 3 then Average(Positions(LatestThree(pastConstructor))) else 10.0;
    FormSpec(pastDriver);
    FormSpec(pastConstructor);
  }

  /** `race_input['driver_form'] = driver_forms` and the same for constructors. */
  method StoreForms(frame: array<Row>, driverForms: seq<real>, constructorForms: seq<real>)
    requires |driverForms| == |constructorForms| == frame.Length
    modifies frame
    ensures forall i :: 0 <= i < frame.Length ==>
              frame[i] == old(frame[i]).(driverForm := Some(driverForms[i]), constructorForm := Some(constructorForms[i]))
  {
    forall i | 0 <= i < frame.Length {
      frame[i] := frame[i].(driverForm := Some(driverForms[i]), constructorForm := Some(constructorForms[i]));
    }
  }

  // -------------------------------------------------------- whole frame

  /** A row once the script has added weather, forms, grid advantage and circuit. */
  function LiveRow(r: Row, w: Weather, hist: seq<RaceRecord>, raceDate: int, round: int): Row {
    var driverForm := DriverForm(hist, r.driver, raceDate);
    r.(weather := Some(w),
       driverForm := Some(driverForm),
       constructorForm := Some(ConstructorForm(hist, r.driver, raceDate)),
       gridAdvantage := Some(r.grid as real - driverForm),
       circuitEncoded := Some(round))
  }

  /** The frame handed to the model. */
  function LivePrepared(gridData: seq<(string, int)>, bestLaps: seq<(string, real)>, samples: seq<Weather>,
                        hist: seq<RaceRecord>, season: int, round: int, today: int): seq<Row>
    requires samples != []
  {
    var merged := MergeQualifying(gridData, bestLaps);
    var raceDate := RaceDate(hist, season, round, today);
    seq(|merged|, i requires 0 <= i < |merged| => LiveRow(merged[i], samples[0], hist, raceDate, round))
  }

  /** The merge, the weather columns, the race date, the form loop, the grid
      advantage and the circuit code, in the scripts' order. */
  method PrepareFrame(gridData: seq<(string, int)>, bestLaps: seq<(string, real)>, samples: seq<Weather>,
                      hist: seq<RaceRecord>, season: int, round: int, today: int)
    returns (frame: array<Row>)
    requires samples != []
    ensures fresh(frame)
    ensures frame[..] == LivePrepared(gridData, bestLaps, samples, hist, season, round, today)
  {
    var merged := MergeQualifying(gridData, bestLaps);
    frame := new Row[|merged|](i requires 0 <= i < |merged| => merged[i]);
    AttachWeather(frame, samples);
    ghost var weathered := frame[..];

    var raceDate := RaceDate(hist, season, round, today);
    var driverForms, constructorForms := CollectForms(frame, hist, raceDate);
    StoreForms(frame, driverForms, constructorForms);
    ghost var stored := frame[..];
    AddGridAdvantage(frame);
    ghost var advantaged := frame[..];
    SetCircuit(frame, round);

    ghost var prepared := LivePrepared(gridData, bestLaps, samples, hist, season, round, today);
    assert |prepared| == |merged|;
    forall i | 0 <= i < frame.Length ensures frame[i] == prepared[i] {
      assert weathered[i] == merged[i].(weather := Some(samples[0]));
      assert stored[i] == weathered[i].(driverForm := Some(driverForms[i]), constructorForm := Some(constructorForms[i]));
      assert advantaged[i] == WithGridAdvantage(stored[i]);
      LiveRowSteps(merged[i], samples[0], hist, raceDate, round, driverForms[i], constructorForms[i]);
      assert prepared[i] == LiveRow(merged[i], samples[0], hist, raceDate, round);
    }
  }

  /** The script's column steps, applied to one merged row, give `LiveRow`. */
  lemma LiveRowSteps(m: Row, w: Weather, hist: seq<RaceRecord>, raceDate: int, round: int, d: real, c: real)
    requires d == DriverForm(hist, m.driver, raceDate) && c == ConstructorForm(hist, m.driver, raceDate)
    ensures WithGridAdvantage(m.(weather := Some(w)).(driverForm := Some(d), constructorForm := Some(c))).(circuitEncoded := Some(round))
            == LiveRow(m, w, hist, raceDate, round)
  {
  }

  /** Each prepared row is ready for the model: its forms are the rolling
      forms over the races before the race date with the 10.0 default, its
      grid advantage is grid minus the driver form, its circuit code is the
      round, every row carries the first weather reading, and the qualifying
      time is the merged one, missing or not. */
  lemma LiveRowSpec(r: Row, w: Weather, hist: seq<RaceRecord>, raceDate: int, round: int)
    ensures var f := LiveRow(r, w, hist, raceDate, round);
            && Ready(f)
            && f.driver == r.driver && f.grid == r.grid
            && f.qualifyingTime == r.qualifyingTime
            && f.weather == Some(w)
            && f.circuitEncoded == Some(round)
            && f.gridAdvantage.value == f.grid as real - f.driverForm.value
    ensures var past := Past(hist, Driver(r.driver), raceDate);
            var f := LiveRow(r, w, hist, raceDate, round);
            && (|past| < FormWindow ==> f.driverForm.value == DefaultForm)
            && (|past| >= FormWindow ==> f.driverForm.value == Average(Positions(LatestThree(past))))
    ensures var past := Past(hist, Constructor(ConstructorOf(hist, r.driver)), raceDate);
            var f := LiveRow(r, w, hist, raceDate, round);
            && (|past| < FormWindow ==> f.constructorForm.value == DefaultForm)
            && (|past| >= FormWindow ==> f.constructorForm.value == Average(Positions(LatestThree(past))))
  {
    FormSpec(Past(hist, Driver(r.driver), raceDate));
    FormSpec(Past(hist, Constructor(ConstructorOf(hist, r.driver)), raceDate));
  }

  /** A driver with no history row gets the default constructor form. */
  lemma NewcomerConstructorForm(hist: seq<RaceRecord>, driver: string, raceDate: int)
    requires forall i :: 0 <= i < |hist| ==> hist[i].driver != driver
    ensures ConstructorForm(hist, driver, raceDate) == DefaultForm
    ensures DriverForm(hist, driver, raceDate) == DefaultForm
  {
    UnknownDriverConstructorForm(hist, driver, raceDate);
    assert Past(hist, Driver(driver), raceDate) == [] by {
      UnknownDriverHasNoPast(hist, driver, raceDate);
    }
  }

  lemma {:induction false} UnknownDriverHasNoPast(hist: seq<RaceRecord>, driver: string, raceDate: int)
    requires forall i :: 0 <= i < |hist| ==> hist[i].driver != driver
    ensures Past(hist, Driver(driver), raceDate) == []
  {
    if hist != [] {
      assert forall i :: 0 <= i < |hist[1..]| ==> hist[1..][i] == hist[i + 1];
      UnknownDriverHasNoPast(hist[1..], driver, raceDate);
    }
  }

  /** The prepared frame: one row per grid driver in grid order, every row
      ready for the model, and a driver without a quick lap passed to the model
      with a missing qualifying time (there is no fallback here). */
  lemma LivePreparedSpec(gridData: seq<(string, int)>, bestLaps: seq<(string, real)>, samples: seq<Weather>,
                         hist: seq<RaceRecord>, season: int, round: int, today: int)
    requires samples != [] && DistinctKeys(bestLaps)
    ensures var p := LivePrepared(gridData, bestLaps, samples, hist, season, round, today);
            && |p| == |gridData|
            && AllReady(p)
            && forall i :: 0 <= i < |p| ==>
                 && p[i].driver == gridData[i].0
                 && p[i].weather == Some(samples[0])
                 && p[i].qualifyingTime == Lookup(bestLaps, gridData[i].0)
                 && FeaturesOf(p[i]).qualifyingTime == Lookup(bestLaps, gridData[i].0)
                 && FeaturesOf(p[i]).circuitEncoded == round
  {
    MergeQualifyingSpec(gridData, bestLaps);
    var merged := MergeQualifying(gridData, bestLaps);
    var raceDate := RaceDate(hist, season, round, today);
    forall i | 0 <= i < |merged| ensures Ready(LiveRow(merged[i], samples[0], hist, raceDate, round)) {
      LiveRowSpec(merged[i], samples[0], hist, raceDate, round);
    }
  }
}
