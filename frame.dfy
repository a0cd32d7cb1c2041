/** The per-race frame the scripts build for the drivers of one race, and
    the steps they share: the left merge on the driver column, whole-column
    assignments, the model's prediction and the ranking by predicted
    position. A frame that a script changes column by column is an
    `array<Row>`; a column a script has not added yet, or a NaN cell, is
    `None`. */
module Frame {
  import opened Tables
  import opened Sorting

  /** The first weather reading of the qualifying session. */
  datatype Weather = Weather(airTemp: real, trackTemp: real, humidity: real)

  /** One driver's row of `race_input` / `race_df`. */
  datatype Row = Row(
    driver: string,
    driverId: Option<string>,      // Ergast driverId (simulate_race.py only)
    team: Option<string>,          // Ergast constructor name (simulate_race.py only)
    grid: int,
    qualifyingTime: Option<real>,
    weather: Option<Weather>,
    circuitEncoded: Option<int>,
    driverForm: Option<real>,
    constructorForm: Option<real>,
    gridAdvantage: Option<real>,
    predicted: Option<real>,       // predicted_position
    finish: Option<int>,           // simulated_finish
    actual: Option<int>,           // actual_position
    error: Option<int>)

  /** A row holding only the driver and the grid slot. */
  function GridRow(driver: string, grid: int): Row {
    Row(driver, None, None, grid, None, None, None, None, None, None, None, None, None, None)
  }

  // ------------------------------------------------------------ left merge

  /** The right-hand values whose key is `key`, in table order. */
  function Matches<V>(key: string, right: seq<(string, V)>): (m: seq<V>)
    ensures m == [] <==> forall i :: 0 <= i < |right| ==> right[i].0 != key
    ensures |m| <= |right|
  {
    if right == [] then []
    else if right[0].0 == key then [right[0].1] + Matches(key, right[1..])
    else
      var rest := Matches(key, right[1..]);
      assert rest == [] ==> forall i :: 0 <= i < |right| ==> right[i].0 != key by {
        if rest == [] {
          forall i | 0 <= i < |right| ensures right[i].0 != key {
            if i > 0 { assert right[i] == right[1..][i - 1]; }
          }
        }
      }
      rest
  }

  /** The rows one left row becomes: one per match, or itself with a missing value. */
  function MergeOne<V>(row: Row, right: seq<(string, V)>, put: (Row, Option<V>) -> Row): seq<Row> {
    var m := Matches(row.driver, right);
    if m == [] then [put(row, None)] else Column(m, (v: V) => put(row, Some(v)))
  }

  /** `pd.merge(left, right, on='driver', how='left')`: left rows in order,
      each repeated once per matching right row, or kept once with a missing
      value when nothing matches. `put` stores the right-hand value. */
  function LeftMerge<V>(left: seq<Row>, right: seq<(string, V)>, put: (Row, Option<V>) -> Row): seq<Row> {
    if left == [] then [] else MergeOne(left[0], right, put) + LeftMerge(left[1..], right, put)
  }

  /** With one right row per key, the matches are the lookup's value or nothing. */
  lemma {:induction false} MatchesDistinct<V>(key: string, right: seq<(string, V)>)
    requires DistinctKeys(right)
    ensures Matches(key, right) == match Lookup(right, key) case Some(v) => [v] case None => []
  {
    if right != [] {
      assert DistinctKeys(right[1..]) by {
        forall i, j | 0 <= i < j < |right[1..]| ensures right[1..][i].0 != right[1..][j].0 {
          assert right[1..][i] == right[i + 1] && right[1..][j] == right[j + 1];
        }
      }
      MatchesDistinct(key, right[1..]);
      if right[0].0 == key {
        assert forall i :: 0 <= i < |right[1..]| ==> right[1..][i].0 != key by {
          forall i | 0 <= i < |right[1..]| ensures right[1..][i].0 != key {
            assert right[1..][i] == right[i + 1];
          }
        }
        assert Matches(key, right[1..]) == [];
        assert Lookup(right, key) == Some(right[0].1);
      } else {
        assert Lookup(right, key) == Lookup(right[1..], key) by {
          LookupTail(right, key);
        }
      }
    }
  }

  lemma LookupTail<V>(right: seq<(string, V)>, key: string)
    requires right != [] && right[0].0 != key
    ensures Lookup(right, key) == Lookup(right[1..], key)
  {
    assert FirstWhere(right, (kv: (string, V)) => kv.0 == key) == FirstWhere(right[1..], (kv: (string, V)) => kv.0 == key);
  }

  /** When the right table has one row per driver, the left merge keeps every
      left row exactly once, in order, with the looked-up value or a missing one. */
  lemma {:induction false} LeftMergeDistinct<V>(left: seq<Row>, right: seq<(string, V)>, put: (Row, Option<V>) -> Row)
    requires DistinctKeys(right)
    ensures |LeftMerge(left, right, put)| == |left|
    ensures forall i :: 0 <= i < |left| ==> LeftMerge(left, right, put)[i] == put(left[i], Lookup(right, left[i].driver))
  {
    if left != [] {
      LeftMergeDistinct(left[1..], right, put);
      MatchesDistinct(left[0].driver, right);
      var one := MergeOne(left[0], right, put);
      assert one == [put(left[0], Lookup(right, left[0].driver))] by {
        match Lookup(right, left[0].driver)
        case None =>
        case Some(v) =>
          assert Matches(left[0].driver, right) == [v];
          assert [v][1..] == [];
      }
      var out := LeftMerge(left, right, put);
      forall i | 0 <= i < |left| ensures out[i] == put(left[i], Lookup(right, left[i].driver)) {
        if i > 0 { assert out[i] == LeftMerge(left[1..], right, put)[i - 1]; }
      }
    }
  }

  // -------------------------------------------------------- column updates

  /** The column `grid - driver_form`. */
  function WithGridAdvantage(r: Row): Row
    requires r.driverForm.Some?
  {
    r.(gridAdvantage := Some(r.grid as real - r.driverForm.value))
  }

  /** `df['grid_advantage'] = df['grid'] - df['driver_form']`. */
  method AddGridAdvantage(frame: array<Row>)
    requires forall i :: 0 <= i < frame.Length ==> frame[i].driverForm.Some?
    modifies frame
    ensures forall i :: 0 <= i < frame.Length ==> frame[i] == WithGridAdvantage(old(frame[i]))
    ensures forall i :: 0 <= i < frame.Length ==>
              frame[i].driverForm.Some? &&
              frame[i].gridAdvantage == Some(frame[i].grid as real - frame[i].driverForm.value)
  {
    forall i | 0 <= i < frame.Length {
      frame[i] := WithGridAdvantage(frame[i]);
    }
  }

  /** `df['circuit_encoded'] = code` on every row. */
  method SetCircuit(frame: array<Row>, code: int)
    modifies frame
    ensures forall i :: 0 <= i < frame.Length ==> frame[i] == old(frame[i]).(circuitEncoded := Some(code))
  {
    forall i | 0 <= i < frame.Length {
      frame[i] := frame[i].(circuitEncoded := Some(code));
    }
  }

  // ------------------------------------------------------------ prediction

  /** The model's input row (`X = df[features]`); the live scripts also pass
      the weather, and a missing qualifying time reaches the model as NaN. */
  datatype Features = Features(
    grid: int,
    driverForm: real,
    constructorForm: real,
    circuitEncoded: int,
    gridAdvantage: real,
    qualifyingTime: Option<real>,
    weather: Option<Weather>)

  /** The trained regressor, of which nothing is known. */
  type Predictor = Features -> real

  /** Every feature column the model needs is present. */
  predicate Ready(r: Row) {
    r.driverForm.Some? && r.constructorForm.Some? && r.circuitEncoded.Some? && r.gridAdvantage.Some?
  }

  predicate AllReady(rows: seq<Row>) {
    forall i :: 0 <= i < |rows| ==> Ready(rows[i])
  }

  function FeaturesOf(r: Row): Features
    requires Ready(r)
  {
    Features(r.grid, r.driverForm.value, r.constructorForm.value, r.circuitEncoded.value,
             r.gridAdvantage.value, r.qualifyingTime, r.weather)
  }

  function Predict(r: Row, predict: Predictor): Row
    requires Ready(r)
  {
    r.(predicted := Some(predict(FeaturesOf(r))))
  }

  /** `df['predicted_position'] = model.predict(X)`. */
  function WithPredictions(rows: seq<Row>, predict: Predictor): (out: seq<Row>)
    requires AllReady(rows)
  {
    seq(|rows|, i requires 0 <= i < |rows| => Predict(rows[i], predict))
  }

  method AddPredictions(frame: array<Row>, predict: Predictor)
    requires AllReady(frame[..])
    modifies frame
    ensures frame[..] == WithPredictions(old(frame[..]), predict)
  {
    forall i | 0 <= i < frame.Length {
      frame[i] := Predict(frame[i], predict);
    }
  }

  // --------------------------------------------------------------- ranking

  /** `sort_values('predicted_position')` order: ascending, missing last. */
  predicate PredictedLe(a: Row, b: Row) {
    match (a.predicted, b.predicted)
    case (Some(x), Some(y)) => x <= y
    case (Some(_), None) => true
    case (None, Some(_)) => false
    case (None, None) => true
  }

  function ByPrediction(): (Row, Row) -> bool {
    (a: Row, b: Row) => PredictedLe(a, b)
  }

  lemma ByPredictionOrders()
    ensures TotalPreorder(ByPrediction())
  {
  }

  /** `range(1, len(df) + 1)` as a column. */
  function Ranks(n: nat): seq<Option<int>> {
    seq(n, k => Some(k + 1))
  }

  /** `df_sorted['simulated_finish'] = range(1, len(df_sorted) + 1)`. */
  function Numbered(rows: seq<Row>): seq<Row> {
    seq(|rows|, i requires 0 <= i < |rows| => rows[i].(finish := Some(i + 1)))
  }

  /** The sorted frame with its simulated finishing positions. */
  function Ranked(rows: seq<Row>): seq<Row> {
    Numbered(SortBy(rows, ByPrediction()))
  }

  method AssignFinishes(frame: array<Row>)
    modifies frame
    ensures frame[..] == Numbered(old(frame[..]))
  {
    forall i | 0 <= i < frame.Length {
      frame[i] := frame[i].(finish := Some(i + 1));
    }
  }

  /** `model.predict`, `sort_values('predicted_position')`, then the finishes
      1..N: the scripts' `predict_race` step. The input frame gains the
      prediction column; the result is a new, sorted frame. */
  method PredictAndRank(frame: array<Row>, predict: Predictor) returns (sorted: array<Row>)
    requires AllReady(frame[..])
    modifies frame
    ensures frame[..] == WithPredictions(old(frame[..]), predict)
    ensures fresh(sorted) && sorted[..] == Ranked(frame[..])
  {
    AddPredictions(frame, predict);
    var order := SortBy(frame[..], ByPrediction());
    sorted := new Row[|order|](i requires 0 <= i < |order| => order[i]);
    assert sorted[..] == order;
    AssignFinishes(sorted);
  }

  /** A row without its simulated finish. */
  function Unranked(r: Row): Row {
    r.(finish := None)
  }

  /** The ranked frame has the same rows as the input (a permutation), its
      finishes are 1..N from top to bottom, and it ascends by prediction. */
  lemma RankedSpec(rows: seq<Row>)
    ensures |Ranked(rows)| == |rows|
    ensures multiset(Column(Ranked(rows), Unranked)) == multiset(Column(rows, Unranked))
    ensures Column(Ranked(rows), (r: Row) => r.finish) == Ranks(|rows|)
    ensures forall i, j :: 0 <= i < j < |rows| ==> PredictedLe(Ranked(rows)[i], Ranked(rows)[j])
  {
    RankedSameRows(rows);
    RankedFinishes(rows);
    RankedAscends(rows);
  }

  lemma RankedSameRows(rows: seq<Row>)
    ensures multiset(Column(Ranked(rows), Unranked)) == multiset(Column(rows, Unranked))
  {
    var sorted := SortBy(rows, ByPrediction());
    var ranked := Ranked(rows);
    forall i | 0 <= i < |ranked| ensures Unranked(ranked[i]) == Unranked(sorted[i]) {
      assert ranked[i] == sorted[i].(finish := Some(i + 1));
    }
    ColumnPointwise(ranked, sorted, Unranked);
    ColumnPreservesPermutation(sorted, rows, Unranked);
  }

  lemma RankedFinishes(rows: seq<Row>)
    ensures Column(Ranked(rows), (r: Row) => r.finish) == Ranks(|rows|)
  {
    var ranked := Ranked(rows);
    var fin := (r: Row) => r.finish;
    forall k | 0 <= k < |rows| ensures Column(ranked, fin)[k] == Ranks(|rows|)[k] {
      ColumnAt(ranked, fin, k);
    }
  }

  lemma RankedAscends(rows: seq<Row>)
    ensures forall i, j :: 0 <= i < j < |rows| ==> PredictedLe(Ranked(rows)[i], Ranked(rows)[j])
  {
    var sorted := SortBy(rows, ByPrediction());
    var ranked := Ranked(rows);
    ByPredictionOrders();
    SortBySorted(rows, ByPrediction());
    forall i, j | 0 <= i < j < |rows| ensures PredictedLe(ranked[i], ranked[j]) {
      assert ByPrediction()(sorted[i], sorted[j]);
    }
  }

  /** Finishing order is prediction order, both ways: a strictly smaller
      prediction finishes ahead, and whoever finishes ahead was predicted no
      worse. */
  lemma FinishOrder(rows: seq<Row>, i: nat, j: nat)
    requires i < |rows| && j < |rows|
    ensures Ranked(rows)[i].finish == Some(i + 1)
    ensures !PredictedLe(Ranked(rows)[j], Ranked(rows)[i]) ==> Ranked(rows)[i].finish.value < Ranked(rows)[j].finish.value
    ensures Ranked(rows)[i].finish.value < Ranked(rows)[j].finish.value ==> PredictedLe(Ranked(rows)[i], Ranked(rows)[j])
  {
    RankedSpec(rows);
    ByPredictionOrders();
  }

  /** Once every row has a prediction, the ranked frame's predictions are
      present and ascend from the first finisher to the last. */
  lemma RankedPredictions(rows: seq<Row>, predict: Predictor)
    requires AllReady(rows)
    ensures forall i :: 0 <= i < |rows| ==> Ranked(WithPredictions(rows, predict))[i].predicted.Some?
    ensures forall i, j :: 0 <= i < j < |rows| ==>
              Ranked(WithPredictions(rows, predict))[i].predicted.value <= Ranked(WithPredictions(rows, predict))[j].predicted.value
  {
    var p := WithPredictions(rows, predict);
    var sorted := SortBy(p, ByPrediction());
    var ranked := Ranked(p);
    forall i | 0 <= i < |rows| ensures ranked[i].predicted.Some? && ranked[i].predicted == sorted[i].predicted {
      RankedRowFrom(p, i);
    }
    ByPredictionOrders();
    SortBySorted(p, ByPrediction());
  }

  /** Each ranked row is an input row with its finish added. */
  lemma RankedRowFrom(rows: seq<Row>, i: nat)
    requires i < |rows|
    ensures i < |Ranked(rows)|
    ensures exists k :: 0 <= k < |rows| && Ranked(rows)[i] == rows[k].(finish := Some(i + 1))
  {
    var sorted := SortBy(rows, ByPrediction());
    InPermutation(sorted, rows, i);
    var k :| 0 <= k < |rows| && rows[k] == sorted[i];
    assert Ranked(rows)[i] == sorted[i].(finish := Some(i + 1));
  }

  function Drivers(rows: seq<Row>): seq<string> {
    Column(rows, (r: Row) => r.driver)
  }

  /** The ranking lists the same drivers, each as often as the input does. */
  lemma RankedDrivers(rows: seq<Row>)
    ensures multiset(Drivers(Ranked(rows))) == multiset(Drivers(rows))
  {
    var sorted := SortBy(rows, ByPrediction());
    var d := (r: Row) => r.driver;
    ColumnPointwise(Ranked(rows), sorted, d);
    ColumnPreservesPermutation(sorted, rows, d);
  }
}
