/** src/simulate_race_2025.py: the fixed-round script over the FastF1
    sessions. The sessions' tables are passed in (loading them is not
    modelled); the frame is prepared as in `LiveRace` over the 2025 history
    and ranked by the model's predicted position. */
module SimulateRace2025 {
  import opened Tables
  import opened Sorting
  import opened History
  import opened Frame
  import opened LiveRace

  const Season: int := 2025
  const RoundNo: int := 8

  /** The ranked frame the script prints. */
  function Simulated(gridData: seq<(string, int)>, bestLaps: seq<(string, real)>, samples: seq<Weather>,
                     hist: seq<RaceRecord>, today: int, predict: Predictor): seq<Row>
    requires samples != []
  {
    var prepared := LivePrepared(gridData, bestLaps, samples, hist, Season, RoundNo, today);
    PreparedIsReady(gridData, bestLaps, samples, hist, today);
    Ranked(WithPredictions(prepared, predict))
  }

  lemma PreparedIsReady(gridData: seq<(string, int)>, bestLaps: seq<(string, real)>, samples: seq<Weather>,
                        hist: seq<RaceRecord>, today: int)
    requires samples != []
    ensures AllReady(LivePrepared(gridData, bestLaps, samples, hist, Season, RoundNo, today))
  {
    var merged := MergeQualifying(gridData, bestLaps);
    var raceDate := RaceDate(hist, Season, RoundNo, today);
    forall i | 0 <= i < |merged| ensures Ready(LiveRow(merged[i], samples[0], hist, raceDate, RoundNo)) {
      LiveRowSpec(merged[i], samples[0], hist, raceDate, RoundNo);
    }
  }

  /** The script from the grid table on: merge, weather, race date, forms,
      grid advantage, circuit = round, prediction and ranking. */
  method Run(gridData: seq<(string, int)>, bestLaps: seq<(string, real)>, samples: seq<Weather>,
             hist: seq<RaceRecord>, today: int, predict: Predictor) returns (raceSorted: array<Row>)
    requires samples != []
    ensures fresh(raceSorted)
    ensures raceSorted[..] == Simulated(gridData, bestLaps, samples, hist, today, predict)
  {
    var raceInput := PrepareFrame(gridData, bestLaps, samples, hist, Season, RoundNo, today);
    PreparedIsReady(gridData, bestLaps, samples, hist, today);
    raceSorted := PredictAndRank(raceInput, predict);
  }

  /** What the script prints, for one best lap per driver: the grid's
      drivers, each once per grid row, with finishes 1..N from the top,
      predictions ascending, and round 8 as every row's circuit code. */
  lemma SimulatedSpec(gridData: seq<(string, int)>, bestLaps: seq<(string, real)>, samples: seq<Weather>,
                      hist: seq<RaceRecord>, today: int, predict: Predictor)
    requires samples != [] && DistinctKeys(bestLaps)
    ensures var out := Simulated(gridData, bestLaps, samples, hist, today, predict);
            && |out| == |gridData|
            && (forall i :: 0 <= i < |out| ==> out[i].finish == Some(i + 1))
            && (forall i :: 0 <= i < |out| ==> out[i].circuitEncoded == Some(RoundNo) && out[i].weather == Some(samples[0]))
            && (forall i :: 0 <= i < |out| ==> out[i].predicted.Some?)
            && (forall i, j :: 0 <= i < j < |out| ==> out[i].predicted.value <= out[j].predicted.value)
            && multiset(Drivers(out)) == multiset(Column(gridData, (e: (string, int)) => e.0))
  {
    var prepared := LivePrepared(gridData, bestLaps, samples, hist, Season, RoundNo, today);
    var predicted := WithPredictions(prepared, predict);
    var out := Ranked(predicted);
    LivePreparedSpec(gridData, bestLaps, samples, hist, Season, RoundNo, today);
    FinishesAndOrder(predicted);
    RankedPredictions(prepared, predict);
    forall i | 0 <= i < |out|
      ensures out[i].circuitEncoded == Some(RoundNo) && out[i].weather == Some(samples[0])
    {
      RankedRowFrom(predicted, i);
    }
    RankedDrivers(predicted);
    PreparedDrivers(gridData, bestLaps, samples, hist, today, predict);
  }

  lemma FinishesAndOrder(rows: seq<Row>)
    ensures |Ranked(rows)| == |rows|
    ensures forall i :: 0 <= i < |rows| ==> Ranked(rows)[i].finish == Some(i + 1)
  {
    forall i | 0 <= i < |rows| ensures Ranked(rows)[i].finish == Some(i + 1) {
      FinishOrder(rows, i, i);
    }
  }

  lemma PreparedDrivers(gridData: seq<(string, int)>, bestLaps: seq<(string, real)>, samples: seq<Weather>,
                        hist: seq<RaceRecord>, today: int, predict: Predictor)
    requires samples != [] && DistinctKeys(bestLaps)
    ensures AllReady(LivePrepared(gridData, bestLaps, samples, hist, Season, RoundNo, today))
    ensures Drivers(WithPredictions(LivePrepared(gridData, bestLaps, samples, hist, Season, RoundNo, today), predict))
            == Column(gridData, (e: (string, int)) => e.0)
  {
    var prepared := LivePrepared(gridData, bestLaps, samples, hist, Season, RoundNo, today);
    LivePreparedSpec(gridData, bestLaps, samples, hist, Season, RoundNo, today);
    var predicted := WithPredictions(prepared, predict);
    var d := (r: Row) => r.driver;
    var g := (e: (string, int)) => e.0;
    forall i | 0 <= i < |gridData| ensures Column(predicted, d)[i] == Column(gridData, g)[i] {
      ColumnAt(predicted, d, i);
      ColumnAt(gridData, g, i);
    }
  }
}
