# F1 race outcome predictor: feature derivation and race ranking

This project models the table logic behind the F1 race outcome predictor, in Dafny. The predictor's scripts build one feature row per driver for a given race:
- the qualifying time,
- driver and constructor "form" (the mean finishing position over recent races),
- the grid advantage and a circuit code,
- for the live scripts, the qualifying weather.

The scripts hand those rows to a trained model. They sort the drivers by the predicted position and number them 1..N as the simulated finishing order. The dashboard then joins that order with the actual result and classes each driver's error.

The offline feature script derives the training-set columns of the same names from a table of past races.

Pandas frames are modelled as follows:
- A frame is a sequence of rows.
- A frame that a script changes column by column is an `array` of rows, updated in place by methods.
- A missing cell (`None`/`NaN`) is `Option.None`.
- Dates are integers that order as the calendar does.
- Positions are `int`; times, forms and scores are `real`.
- The trained model is a parameter `predict: Features -> real` about which nothing is assumed.

Modules, one per concern:
- `Tables`: first-match search (`next(...)`), lookup in key/value tables, `fillna`, sums and means.
- `Sorting`: a sort by a total preorder with sortedness and permutation proved, and column projection (`df[col]`).
- `QualiTime`: Python's `str.split(':')`, `int`/`float` on a digits-and-dot grammar, `time_to_seconds`, and the best Q1/Q2/Q3 time.
- `Circuits`: the sorted distinct category list of pandas, `encode_circuit` and scikit-learn's `LabelEncoder`.
- `History`: race records, the "strictly before this date" filters, the rolling form of the last three races with its 10.0 default, the race-date pick and the constructor lookup.
- `Frame`: the feature row, the left merge on `driver`, the grid advantage and circuit columns, the model call, and `predict_race` (sort by prediction, finishes 1..N).
- `SimulateRace`: `src/simulate_race.py` (Ergast-style input, same-season form, qualifying fallback).
- `LiveRace`: the steps that `src/app.py` and `src/simulate_race_2025.py` share (grid/qualifying merge, weather, form loop, circuit = round).
- `App`: `src/app.py` (calendar and round lookup, scoring against the actual result, error classes, plot order).
- `SimulateRace2025`: `src/simulate_race_2025.py`.
- `Features2024`: `src/generate_2024_features.py` (label encoding, shifted per-group rolling form, grid advantage).

## Model

| member | source | states |
|---|---|---|
| `Tables.FirstWhere` | src/simulate_race.py:57 | `next(...)` finds nothing exactly when no row matches; otherwise it returns a matching row with no match before it |
| `Sorting.SortBy` | src/simulate_race.py:118 | `sort_values` returns the same rows (same multiset, same length) |
| `Sorting.SortBySorted` | src/simulate_race.py:118 | under a total preorder, the sorted frame is ordered by it |
| `QualiTime.Split` | src/simulate_race.py:32 | `split(':')` gives at least one piece and no piece holds the separator |
| `QualiTime.JoinSplit` | src/simulate_race.py:32 | joining the pieces of a split with ':' gives the string back |
| `QualiTime.SplitJoin` | src/simulate_race.py:32 | splitting the join of separator-free pieces gives the pieces back, so `mins, secs = ...` unpacks exactly one-colon strings |
| `QualiTime.SplitCount` | src/simulate_race.py:32 | the number of pieces is the number of separators plus one |
| `QualiTime.ParseInt` | src/simulate_race.py:33 | in the model's grammar, `int(s)` succeeds exactly for an optional sign followed by at least one ASCII digit |
| `QualiTime.ParseFloat` | src/simulate_race.py:33 | in the model's grammar, `float(s)` succeeds only for an optional sign followed by a non-empty run of digits with at most one dot |
| `QualiTime.ParseIntValue` | src/simulate_race.py:33 | `int` of a digit string is its base-10 value, leading zeros allowed ("04" is 4) |
| `QualiTime.ParseIntSign` | src/simulate_race.py:33 | a leading '+' changes nothing and a leading '-' negates what `int` reads |
| `QualiTime.ParseFloatDecimal` | src/simulate_race.py:33 | `float("W.F")` is W + 0.F for digit strings W and F, either of them empty but not both |
| `QualiTime.ParseFloatWhole` | src/simulate_race.py:33 | `float` of a dot-less digit string is its value |
| `QualiTime.ParseFloatSign` | src/simulate_race.py:33 | a leading '+' changes nothing and a leading '-' negates what `float` reads |
| `QualiTime.TimeToSeconds` | src/simulate_race.py:28-35 | None for None and for any string without exactly one ':'; a result only when both pieces parse |
| `QualiTime.TimeToSecondsOf` | src/simulate_race.py:31-32 | two ':'-free pieces that parse give minutes * 60 + seconds |
| `QualiTime.MinutesThen` | src/simulate_race.py:31-32 | minute digits, ':' and a ':'-free piece that `float` reads as S give M * 60 + S |
| `QualiTime.LapTimeValue` | src/simulate_race.py:31-32 | every "M:W.F" of digit strings, zero-padded or not, gives M * 60 + W + 0.F seconds |
| `QualiTime.WholeLapTimeValue` | src/simulate_race.py:31-32 | every "M:W" of digit strings gives M * 60 + W seconds |
| `QualiTime.ExampleLapTime` | src/simulate_race.py:31-32 | "1:18.576" gives 78.576 |
| `QualiTime.ExamplePaddedLapTime` | src/simulate_race.py:31-32 | the zero-padded "1:04.314" gives 64.314 |
| `QualiTime.Present` | src/simulate_race.py:62 | the valid times are exactly the present ones, and none is left when every time is missing |
| `QualiTime.Minimum` | src/simulate_race.py:63 | `min` of the valid times: None iff there are none, otherwise one of them and no larger than any |
| `QualiTime.BestTimeSpec` | src/simulate_race.py:57-63 | the best time is missing iff the driver has no entry or no Q1/Q2/Q3 time parses; otherwise it is one of the parsed times and beats or ties all of them |
| `Circuits.InsertNameSpec` | src/simulate_race.py:24 | adding a name to the category list keeps it strictly sorted and adds exactly that name |
| `Circuits.Categories` | src/simulate_race.py:24 | the categories are strictly sorted and are exactly the names in the column |
| `Circuits.Position` | src/simulate_race.py:25 | `list.index` or -1: -1 iff absent, otherwise the first index holding the name |
| `Circuits.EncodeCircuit` | src/simulate_race.py:23-25 | the code lies in [-1, k-1], is -1 iff the name is not in the table, and otherwise indexes the name in the categories |
| `Circuits.SortedIndexOrder` | src/simulate_race.py:24 | in the category list, name order and index order agree |
| `Circuits.EncodeCircuitOrder` | src/simulate_race.py:23-25 | for known circuits, equal names iff equal codes, and name order iff code order |
| `Circuits.LabelEncodeSpec` | src/generate_2024_features.py:18-19 | codes lie in 0..k-1, equal names iff equal codes, and name order iff code order |
| `History.Past` | src/simulate_race.py:85-86 | the filtered rows are exactly the entity's rows dated strictly before the race, and no more rows than the history |
| `History.PastCount` | src/simulate_race.py:85-86 | each of the entity's earlier rows is kept as often as the history holds it, and every other row is dropped |
| `History.PastOnlyBefore` | src/simulate_race.py:85-86 | records dated on or after the race never reach the filtered history |
| `History.UnresolvedHasNoPast` | src/app.py:108 | a constructor of None matches no history row |
| `History.SeasonBefore` | src/simulate_race.py:133 | the season history is exactly the season's rows dated before the race |
| `History.SeasonBeforeCount` | src/simulate_race.py:133 | each of the season's earlier rows is kept as often as the history holds it, and every other row is dropped |
| `History.SeasonPast` | src/simulate_race.py:85-86 | filtering the season history by entity and date keeps exactly that entity's same-season rows before the race, each as often as the history holds it |
| `History.ByDateOrders` | src/simulate_race.py:85 | sorting by date is by a total preorder |
| `History.LatestThreeAreLatest` | src/simulate_race.py:88 | the three records averaged are history records, and no other record is dated after any of them |
| `History.FormSpec` | src/simulate_race.py:88-98 | form is 10.0 below three earlier races; otherwise there are three of the earlier races, none of the others dated after any of them, and the form is their mean position |
| `History.ScenarioThreeRaces` | src/simulate_race.py:88 | a driver with positions 1, 2, 3 before the race has form 2.0 |
| `History.ScenarioOneRace` | src/simulate_race.py:88-97 | a driver with one earlier race gets the 10.0 default |
| `History.RaceDateSpec` | src/app.py:98-99 | the race date is the first (season, round) row's date, and `today` when there is no such row |
| `History.ConstructorOf` | src/app.py:106 | None iff the driver has no history row, otherwise the team on the driver's first row |
| `History.UnknownDriverConstructorForm` | src/app.py:106-110 | a driver absent from history gets constructor form 10.0 |
| `Frame.Matches` | src/app.py:82 | a left row has no right-hand match iff no right row carries its key |
| `Frame.LeftMergeDistinct` | src/app.py:139 | with one right row per key, the merge keeps every left row once, in order, with the looked-up value |
| `Frame.AddGridAdvantage` | src/simulate_race.py:105 | every row gets grid advantage = grid − driver form; nothing else changes |
| `Frame.SetCircuit` | src/app.py:117 | every row's circuit code becomes the given code; nothing else changes |
| `Frame.AddPredictions` | src/simulate_race.py:117 | the frame becomes the frame with each row's model output as its prediction |
| `Frame.AssignFinishes` | src/simulate_race.py:119 | the row at position i gets simulated finish i + 1 |
| `Frame.PredictAndRank` | src/simulate_race.py:111-121 | `predict_race`: the input gains predictions and the result is a new frame equal to the ranked frame |
| `Frame.RankedSpec` | src/simulate_race.py:118-119 | same rows up to the finish column (a permutation), finishes exactly 1..N from top to bottom, and ascending by prediction with missing predictions last |
| `Frame.RankedSameRows` | src/simulate_race.py:118-119 | apart from the finish column, the ranked rows are the input rows, each as often as in the input |
| `Frame.RankedFinishes` | src/simulate_race.py:119 | the finish column reads 1, 2, ..., N from top to bottom |
| `Frame.RankedAscends` | src/simulate_race.py:118 | every ranked row's prediction is no worse than any row below it, missing predictions last |
| `Frame.FinishOrder` | src/simulate_race.py:118-119 | a strictly smaller prediction finishes ahead, and whoever finishes ahead was predicted no worse |
| `Frame.RankedPredictions` | src/app.py:129-130 | once every row has features, every ranked row has a prediction and the predictions ascend |
| `Frame.RankedRowFrom` | src/simulate_race.py:118-119 | each ranked row is an input row with only its finish added |
| `Frame.RankedDrivers` | src/app.py:129-130 | the ranking lists the same drivers, each as often as the input |
| `SimulateRace.GetRaceInput` | src/simulate_race.py:49-74 | one row per result entry, in order: full name, driver id, constructor, grid, best qualifying time and circuit code |
| `SimulateRace.InputRowQualifying` | src/simulate_race.py:57-72 | a row's qualifying time is missing iff the driver has no entry or no time parses, and is otherwise the minimum parsed time |
| `SimulateRace.MaxPresent` | src/simulate_race.py:100 | `Series.max()` is missing iff every time is, and otherwise is a present time no smaller than any present time |
| `SimulateRace.FallbackSpec` | src/simulate_race.py:100-102 | a present time is kept; a missing one becomes the slowest present time + 2, or 100.0 when none is present, and is slower than every present time |
| `SimulateRace.CollectForms` | src/simulate_race.py:81-91 | one pair per row: the driver's and the constructor's rolling forms before the race date, missing below three races |
| `SimulateRace.StoreForms` | src/simulate_race.py:93-98 | the two form columns are stored with missing forms filled with 10.0; nothing else changes |
| `SimulateRace.FillQualifying` | src/simulate_race.py:100-102 | every missing qualifying time becomes the fallback computed from the frame before the fill |
| `SimulateRace.ComputeForm` | src/simulate_race.py:78-107 | `compute_form` turns every row into its formed row, with the fallback taken from the input frame |
| `SimulateRace.FormedRowSpec` | src/simulate_race.py:85-105 | a formed row is ready for the model, has a qualifying time (its own when present), grid advantage = grid − final driver form, and both forms follow the three-race rule |
| `SimulateRace.RaceRowOf` | src/simulate_race.py:127-129 | the race row is the first history row of season 2025, round 8: no earlier row has that season and round |
| `SimulateRace.PreparedReady` | src/simulate_race.py:136-137 | the prepared frame has one row per result entry, every row is ready and no qualifying time is missing |
| `SimulateRace.PreparedFromReady` | src/simulate_race.py:78-107 | when every row has a circuit code, `compute_form` leaves every row ready for the model with a qualifying time |
| `SimulateRace.Prepare` | src/simulate_race.py:137 | `compute_form` on the input rows yields exactly the prepared frame |
| `SimulateRace.Run` | src/simulate_race.py:125-138 | the script's output is the ranked prediction of the prepared frame |
| `LiveRace.MergeQualifyingSpec` | src/app.py:82 | with one best lap per driver, every grid driver is kept once, in grid order, with its grid slot; the time is its best lap, and missing iff it has none (also src/simulate_race_2025.py:44) |
| `LiveRace.AttachWeather` | src/app.py:85-88 | every row gets the first weather reading; nothing else changes |
| `LiveRace.CollectForms` | src/app.py:101-112 | one driver form and one constructor form per row, the latter over the team of the driver's first history row |
| `LiveRace.RowForms` | src/app.py:104-109 | one pass of the loop gives the driver's form and the form of the team of the driver's first history row, 10.0 below three earlier races |
| `LiveRace.StoreForms` | src/app.py:114-115 | the two lists become the form columns; nothing else changes |
| `LiveRace.PrepareFrame` | src/app.py:82-117 | the frame built step by step is the prepared frame: merge, weather, race date, forms, grid advantage, circuit = round |
| `LiveRace.LiveRowSpec` | src/app.py:104-117 | a prepared row keeps driver, grid and qualifying time; it has the weather, circuit = round and grid advantage = grid − driver form, and both forms follow the three-race rule |
| `LiveRace.UnknownDriverHasNoPast` | src/app.py:107 | a driver absent from history has no earlier races |
| `LiveRace.NewcomerConstructorForm` | src/app.py:106-110 | a driver absent from history gets 10.0 for both forms |
| `LiveRace.LivePreparedSpec` | src/app.py:82-125 | one ready row per grid driver; the best lap, or a missing time when there is none, reaches the model's features unchanged, and circuit = round |
| `App.CalendarKeys` | src/app.py:16-41 | the calendar has 24 rounds, numbered 1..24 in order |
| `App.CalendarNamesDistinct` | src/app.py:16-41 | the 24 round names are pairwise distinct |
| `App.RoundOfSpec` | src/app.py:51 | the looked-up round is k exactly when (k, name) is in the calendar |
| `App.KeyOfDistinct` | src/app.py:51 | in a table with distinct values, the first key paired with a value is k exactly when (k, value) is an entry |
| `App.KeyAtSlot` | src/app.py:50-51 | with distinct values, the i-th value of the value list looks up to the i-th key |
| `App.RoundOfSlot` | src/app.py:47-51 | the dropdown's i-th name is round i + 1's name, and looking it up gives i + 1 |
| `App.DefaultSelection` | src/app.py:48-51 | the default selection (index 7) is Monaco, round 8 |
| `App.ScoredSpec` | src/app.py:133-140 | with one result row per driver, the ranked rows are kept in order; a matched driver's error is finish − actual position, and an unmatched one has no actual position and no error |
| `App.AddErrors` | src/app.py:140 | every row's error becomes finish − actual position, missing when either is missing |
| `App.ScoreRanking` | src/app.py:139-140 | the merge and error steps produce the scored table |
| `App.SimulateRound` | src/app.py:66-140 | the simulate button's steps give the scored ranking of the prepared frame for the round |
| `App.ClassOfSpec` | src/app.py:150-152 | Accurate iff \|error\| ≤ 1, Close iff 1 < \|error\| ≤ 3, and Off iff the error is larger or missing |
| `App.ClassMonotone` | src/app.py:150-152 | a larger error never gets a better class |
| `App.PlottedSpec` | src/app.py:149-152 | the plot shows the same rows, ascending by actual position with missing ones last, each classed by its own error |
| `App.AppHistorySeasons` | src/app.py:91-95 | the combined history is the 2024 rows with season 2024, then the 2025 rows with season 2025 |
| `App.Run` | src/app.py:55-152 | without sessions the outcome is "data not available"; with sessions it is the scored ranking of the selected round and its plot |
| `SimulateRace2025.Run` | src/simulate_race_2025.py:44-105 | the script's sorted frame is the ranked prediction of the prepared frame for round 8 |
| `SimulateRace2025.SimulatedSpec` | src/simulate_race_2025.py:44-105 | one row per grid driver (same drivers, same multiplicities); finishes 1..N; predictions present and ascending; every row has the first weather reading and circuit code 8 |
| `Features2024.EncodedSpec` | src/generate_2024_features.py:18-19 | the encoded table keeps the records in order, and each code is the circuit's code among the table's circuits |
| `Features2024.ByKeyDateOrders` | src/generate_2024_features.py:23 | sorting by (key, date) is by a total preorder |
| `Features2024.GroupBefore` | src/generate_2024_features.py:25-26 | at most n earlier positions, and none iff no earlier row has the key |
| `Features2024.FirstInGroup` | src/generate_2024_features.py:26 | the form is missing exactly for the first row of its group |
| `Features2024.FormUsesOnlyEarlierRows` | src/generate_2024_features.py:24-27 | a row's form depends only on the rows above it and its own key |
| `Features2024.OwnPositionIrrelevant` | src/generate_2024_features.py:26 | changing a row's own position leaves its form unchanged |
| `Features2024.GroupBeforeIndices` | src/generate_2024_features.py:26 | the earlier positions of a group are the positions at the ascending indices of the group's rows above |
| `Features2024.ShiftedFormWindow` | src/generate_2024_features.py:26 | given the ascending indices of the group's rows above a row, the form is missing iff there are none, and is otherwise the mean position of the last min(3, count) of them |
| `Features2024.FormPassRecords` | src/generate_2024_features.py:23 | a form pass only reorders the records (same multiset) |
| `Features2024.FormPassSorted` | src/generate_2024_features.py:29 | the pass's output is sorted by (key, date) |
| `Features2024.FormPassRowFrom` | src/generate_2024_features.py:29-33 | each output row is an input row with only the pass's own form column changed |
| `Features2024.FormPassForms` | src/generate_2024_features.py:24-27 | the column a pass fills holds, at every row, the shifted form of the output table |
| `Features2024.SortedGroupOrder` | src/generate_2024_features.py:23 | in a sorted table, a group's earlier rows are dated no later, and every strictly earlier race of the group sits above |
| `Features2024.GridPassSpec` | src/generate_2024_features.py:36 | grid advantage = grid − own position on every row; records, codes, forms and the sort are kept |
| `Features2024.FormPassCoded` | src/generate_2024_features.py:29 | a form pass keeps every row's circuit code |
| `Features2024.FormTableSpec` | src/generate_2024_features.py:18-33 | after both passes: same records (a permutation), same codes, sorted by (constructor, date) |
| `Features2024.GenerateSpec` | src/generate_2024_features.py:18-36 | the saved table holds the input's races, each once, sorted by (constructor, date), with circuit codes and grid advantage = grid − position |
| `Features2024.GenerateConstructorForm` | src/generate_2024_features.py:29-33 | each saved row's constructor form is the shifted form over the saved table's constructor groups, teammates included |
| `Features2024.GenerateDriverForm` | src/generate_2024_features.py:23-27 | each saved row's driver form is the shifted form, at the same race, of the table sorted by (driver, date) |

## Left out

- Network and session loading are not modelled: the Ergast HTTP calls, the FastF1 sessions and cache, `pick_quicklaps` and the per-driver `LapTime` minimum. Their tables (result entries, qualifying entries, the grid, the best laps, the weather readings) are parameters.
- The trained model and `joblib` loading are not modelled. `predict` is a parameter and nothing is assumed about it.
- The Streamlit widgets, messages and charts are left out. The plot is modelled only as the rows it shows, their order and their classes (`App.Plotted`).
- CSV reads and writes are left out, and the history tables are parameters.
- `src/predict_next_race.py`, `src/generate_2025_features.py` and `src/f1_features_combined.py` are not part of this model. They are a single model call, a fetch loop and a CSV concatenation.
- The `driver_lookup` mapping from abbreviation to full name is not modelled. Grid, best-lap and result tables come already keyed by the driver's full name. An abbreviation missing from the mapping (a `NaN` driver) is therefore not modelled.
- Parsing and casting are only partly modelled:
  - The Ergast `int(r['grid'])` and the `astype(int)` casts are not modelled; grid and positions are already integers.
  - Python's full `float()` grammar (exponents, "inf", whitespace, underscores) and float rounding are not modelled. Reals are exact; the grammar is an optional sign, digits and at most one dot.
- Date parsing (`pd.to_datetime`) is not modelled; dates are integers. `datetime.today()` is the `today` parameter.
- Tie order is not modelled. A single-column `sort_values` uses an unstable sort, and the model's sort is one particular sort by the same key. Only sortedness, permutation and the 1..N finishes are claimed, never the order of ties.
- `Features2024.FormPassSorted`: the (key, date) sorts at src/generate_2024_features.py:23 and :29 sort on several columns, which pandas does with a stable lexsort. Rows with equal key and date (teammates in one race) keep the order of the previous pass. The model does not claim that order. Through `shift(1)`, the later of two such teammates gets a constructor form that includes the earlier teammate's position in the same race.
- `SimulateRace.StoreForms` and `SimulateRace.FillQualifying` assume that a chained `df['col'].fillna(..., inplace=True)` (src/simulate_race.py:97-98 and :102) writes into the frame. It does up to pandas 2.x. Under pandas 3 copy-on-write that write is lost, and the columns keep their missing values; the model does not follow that version.
- `History.LatestThreeAreLatest`: which of several races on the same date counts among the latest three depends on that tie order. The lemma states only that no left-out race is dated later.
- `SimulateRace.RaceRowOf`: a missing (season, round) row raises `IndexError` at src/simulate_race.py:128. The model makes this a precondition of `SimulateRace.Run`.
- `LiveRace.AttachWeather`: an empty weather table raises at `iloc[0]`. The model makes a non-empty table a precondition, as do `App.Run` and `SimulateRace2025.Run`.
- The merge is modelled for any right-hand table (`Frame.LeftMerge` repeats a left row once per match). These lemmas assume one right row per driver, as the groupby and the race result give: `LiveRace.MergeQualifyingSpec`, `LiveRace.LivePreparedSpec`, `App.ScoredSpec` and `SimulateRace2025.SimulatedSpec`.
- `QualiTime.TimeToSeconds`: its contract states the failure cases and that a result needs both pieces to parse. The value is stated for every unsigned digit form, padded or not, by `QualiTime.LapTimeValue` and `QualiTime.WholeLapTimeValue`. Signed pieces are covered only through `QualiTime.ParseIntSign` and `QualiTime.ParseFloatSign`, not by a lap-time lemma of their own.
- `QualiTime.ParseInt`: Python's `int()` also accepts surrounding whitespace, underscores between digits and non-ASCII Unicode digits. The model's grammar has none of these.
- `QualiTime.ParseFloat`: besides the exponents, "inf", whitespace and underscores named above, its contract states only the shape of an accepted string; the values are in the value lemmas.
- The training column `grid_advantage` is grid − the race's own finishing position (src/generate_2024_features.py:36, modelled as written by `Features2024.GridPassSpec`), so it contains the result being predicted. The live scripts compute grid − driver form instead (src/simulate_race.py:105). The model keeps both as the code has them and claims nothing about their agreement.
- A `NaN` finishing position in the history is not modelled; positions are always present.
- The live scripts (`src/app.py`, `src/simulate_race_2025.py`) have no qualifying fallback: a driver without a quick lap reaches the model with a missing qualifying time (`LiveRace.LivePreparedSpec`). Only `src/simulate_race.py` fills it (`SimulateRace.FallbackSpec`). The model follows the code here.
