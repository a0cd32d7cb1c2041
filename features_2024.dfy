/** src/generate_2024_features.py: the offline feature table. Each step is a
    whole-table expression: label-encoded circuits, a sort by (driver, date)
    and each driver's shifted rolling mean of earlier positions, a sort by
    (constructor, date) and the same per constructor, then grid advantage
    against the row's own finishing position. */
module Features2024 {
  import opened Tables
  import opened Sorting
  import opened Circuits
  import opened History

  /** A history row with the engineered columns (missing until computed). */
  datatype FeatureRow = FeatureRow(
    rec: RaceRecord,
    circuitEncoded: int,
    driverForm: Option<real>,
    constructorForm: Option<real>,
    gridAdvantage: Option<int>)

  function Recs(rows: seq<FeatureRow>): seq<RaceRecord> {
    Column(rows, (r: FeatureRow) => r.rec)
  }

  function CircuitNames(df: seq<RaceRecord>): seq<string> {
    Column(df, (r: RaceRecord) => r.circuit)
  }

  /** `df['circuit_encoded'] = LabelEncoder().fit_transform(df['circuit'])`. */
  function Encoded(df: seq<RaceRecord>): (rows: seq<FeatureRow>)
    ensures |rows| == |df|
  {
    var codes := LabelEncode(CircuitNames(df));
    seq(|df|, i requires 0 <= i < |df| => FeatureRow(df[i], codes[i], None, None, None))
  }

  /** Every row's code is its circuit's code among the table's circuits. */
  predicate AllCoded(rows: seq<FeatureRow>, circuits: seq<string>) {
    forall i :: 0 <= i < |rows| ==> rows[i].circuitEncoded == EncodeCircuit(rows[i].rec.circuit, circuits)
  }

  lemma EncodedSpec(df: seq<RaceRecord>)
    ensures Recs(Encoded(df)) == df
    ensures AllCoded(Encoded(df), CircuitNames(df))
  {
    var rows := Encoded(df);
    var names := CircuitNames(df);
    forall i | 0 <= i < |df| ensures Recs(rows)[i] == df[i] && names[i] == df[i].circuit {
      ColumnAt(rows, (r: FeatureRow) => r.rec, i);
      ColumnAt(df, (r: RaceRecord) => r.circuit, i);
    }
  }

  // --------------------------------------------------------------- sorting

  datatype Grouping = ByDriver | ByConstructor

  function GroupKey(r: FeatureRow, g: Grouping): string {
    match g
    case ByDriver => r.rec.driver
    case ByConstructor => r.rec.team
  }

  /** `sort_values(by=[key, 'date'])` order. */
  predicate KeyDateLe(a: FeatureRow, b: FeatureRow, g: Grouping) {
    Less(GroupKey(a, g), GroupKey(b, g)) || (GroupKey(a, g) == GroupKey(b, g) && a.rec.date <= b.rec.date)
  }

  function ByKeyDate(g: Grouping): (FeatureRow, FeatureRow) -> bool {
    (a: FeatureRow, b: FeatureRow) => KeyDateLe(a, b, g)
  }

  lemma ByKeyDateOrders(g: Grouping)
    ensures TotalPreorder(ByKeyDate(g))
  {
    forall a: FeatureRow, b: FeatureRow ensures KeyDateLe(a, b, g) || KeyDateLe(b, a, g) {
      LessTotal(GroupKey(a, g), GroupKey(b, g));
    }
    forall a: FeatureRow, b: FeatureRow, c: FeatureRow | KeyDateLe(a, b, g) && KeyDateLe(b, c, g)
      ensures KeyDateLe(a, c, g)
    {
      if Less(GroupKey(a, g), GroupKey(b, g)) && Less(GroupKey(b, g), GroupKey(c, g)) {
        LessTransitive(GroupKey(a, g), GroupKey(b, g), GroupKey(c, g));
      }
    }
  }

  // ---------------------------------------------------- shifted rolling form

  /** Positions of the rows before `n` whose group key is `k`, in frame order. */
  function GroupBefore(rows: seq<FeatureRow>, n: nat, k: string, g: Grouping): (ps: seq<int>)
    requires n <= |rows|
    ensures |ps| <= n
    ensures ps == [] <==> forall j :: 0 <= j < n ==> GroupKey(rows[j], g) != k
  {
    if n == 0 then []
    else GroupBefore(rows, n - 1, k, g) + (if GroupKey(rows[n - 1], g) == k then [rows[n - 1].rec.position] else [])
  }

  function Min(a: nat, b: nat): nat {
    if a <= b then a else b
  }

  /** `groupby(key)['position'].transform(lambda x: x.shift(1).rolling(window=3,
      min_periods=1).mean())` at row i: the mean of the group's last (up to)
      three earlier positions, missing when the group has no earlier row. */
  function ShiftedForm(rows: seq<FeatureRow>, i: nat, g: Grouping): Option<real>
    requires i < |rows|
  {
    var prev := GroupBefore(rows, i, GroupKey(rows[i], g), g);
    if prev == [] then None else Some(Average(prev[|prev| - Min(FormWindow, |prev|)..]))
  }

  /** The first row of a group has no form, and only the first. */
  lemma FirstInGroup(rows: seq<FeatureRow>, i: nat, g: Grouping)
    requires i < |rows|
    ensures ShiftedForm(rows, i, g).None? <==> forall j :: 0 <= j < i ==> GroupKey(rows[j], g) != GroupKey(rows[i], g)
  {
  }

  /** The earlier positions depend only on the rows before `n`. */
  lemma {:induction false} GroupBeforePrefix(rows: seq<FeatureRow>, other: seq<FeatureRow>, n: nat, k: string, g: Grouping)
    requires n <= |rows| && n <= |other| && rows[..n] == other[..n]
    ensures GroupBefore(rows, n, k, g) == GroupBefore(other, n, k, g)
  {
    if n > 0 {
      assert rows[n - 1] == rows[..n][n - 1] == other[..n][n - 1] == other[n - 1];
      assert rows[..n - 1] == rows[..n][..n - 1];
      assert other[..n - 1] == other[..n][..n - 1];
      GroupBeforePrefix(rows, other, n - 1, k, g);
    }
  }

  /** A row's form depends only on the rows above it and its own group key:
      its own position and every later row are irrelevant. Rows above it
      may still belong to the same race (a teammate sorted first on the
      same date), so this says nothing about other results of that race. */
  lemma FormUsesOnlyEarlierRows(rows: seq<FeatureRow>, other: seq<FeatureRow>, i: nat, g: Grouping)
    requires i < |rows| && i < |other|
    requires rows[..i] == other[..i]
    requires GroupKey(rows[i], g) == GroupKey(other[i], g)
    ensures ShiftedForm(rows, i, g) == ShiftedForm(other, i, g)
  {
    GroupBeforePrefix(rows, other, i, GroupKey(rows[i], g), g);
  }

  /** Changing a row's own finishing position leaves its form unchanged. */
  lemma OwnPositionIrrelevant(rows: seq<FeatureRow>, i: nat, g: Grouping, p: int)
    requires i < |rows|
    ensures ShiftedForm(rows[i := rows[i].(rec := rows[i].rec.(position := p))], i, g) == ShiftedForm(rows, i, g)
  {
    var other := rows[i := rows[i].(rec := rows[i].rec.(position := p))];
    assert rows[..i] == other[..i];
    FormUsesOnlyEarlierRows(rows, other, i, g);
  }

  /** The finishing positions of the rows at the indices `js`, in that order. */
  function PositionsAt(rows: seq<FeatureRow>, js: seq<nat>): seq<int>
    requires forall t :: 0 <= t < |js| ==> js[t] < |rows|
  {
    seq(|js|, t requires 0 <= t < |js| => rows[js[t]].rec.position)
  }

  /** `js` lists, in increasing order, exactly the indices below `n` of the
      rows whose group key is `k`. */
  ghost predicate GroupIndices(rows: seq<FeatureRow>, n: nat, k: string, g: Grouping, js: seq<nat>) {
    && n <= |rows|
    && (forall t :: 0 <= t < |js| ==> js[t] < n && GroupKey(rows[js[t]], g) == k)
    && (forall t, u :: 0 <= t < u < |js| ==> js[t] < js[u])
    && (forall j :: 0 <= j < n && GroupKey(rows[j], g) == k ==> j in js)
  }

  /** The earlier positions of a group are the positions at its earlier indices. */
  lemma {:induction false} GroupBeforeIndices(rows: seq<FeatureRow>, n: nat, k: string, g: Grouping, js: seq<nat>)
    requires GroupIndices(rows, n, k, g, js)
    ensures GroupBefore(rows, n, k, g) == PositionsAt(rows, js)
    decreases n, 1
  {
    if n == 0 {
      if js != [] {
        GroupIndicesFirst(rows, n, k, g, js);
        assert false;
      }
    } else if GroupKey(rows[n - 1], g) == k {
      GroupBeforeIndicesIn(rows, n, k, g, js);
    } else {
      GroupIndicesSkip(rows, n, k, g, js);
      GroupBeforeIndices(rows, n - 1, k, g, js);
      assert GroupBefore(rows, n, k, g) == GroupBefore(rows, n - 1, k, g) + [];
    }
  }

  /** The step of `GroupBeforeIndices` where row n - 1 is in the group. */
  lemma {:induction false} GroupBeforeIndicesIn(rows: seq<FeatureRow>, n: nat, k: string, g: Grouping, js: seq<nat>)
    requires GroupIndices(rows, n, k, g, js) && n > 0 && GroupKey(rows[n - 1], g) == k
    ensures GroupBefore(rows, n, k, g) == PositionsAt(rows, js)
    decreases n, 0
  {
    GroupIndicesLast(rows, n, k, g, js);
    var front := js[..|js| - 1];
    GroupBeforeIndices(rows, n - 1, k, g, front);
    PositionsAtSnoc(rows, js);
    assert GroupBefore(rows, n, k, g) == GroupBefore(rows, n - 1, k, g) + [rows[n - 1].rec.position];
  }

  lemma GroupIndicesFirst(rows: seq<FeatureRow>, n: nat, k: string, g: Grouping, js: seq<nat>)
    requires GroupIndices(rows, n, k, g, js) && js != []
    ensures js[0] < n
  {
  }

  /** When row n - 1 is in the group, it is the last index listed. */
  lemma GroupIndicesLast(rows: seq<FeatureRow>, n: nat, k: string, g: Grouping, js: seq<nat>)
    requires GroupIndices(rows, n, k, g, js) && n > 0 && GroupKey(rows[n - 1], g) == k
    ensures js != [] && js[|js| - 1] == n - 1
    ensures GroupIndices(rows, n - 1, k, g, js[..|js| - 1])
  {
    assert n - 1 in js;
    var last := |js| - 1;
    assert js[last] == n - 1 by {
      var t :| 0 <= t < |js| && js[t] == n - 1;
      if t < last { assert false; }
    }
    var front := js[..last];
    forall j | 0 <= j < n - 1 && GroupKey(rows[j], g) == k ensures j in front {
      var t :| 0 <= t < |js| && js[t] == j;
      assert t != last;
      assert front[t] == j;
    }
  }

  /** When row n - 1 is outside the group, the same indices serve for n - 1. */
  lemma GroupIndicesSkip(rows: seq<FeatureRow>, n: nat, k: string, g: Grouping, js: seq<nat>)
    requires GroupIndices(rows, n, k, g, js) && n > 0 && GroupKey(rows[n - 1], g) != k
    ensures GroupIndices(rows, n - 1, k, g, js)
  {
    forall t | 0 <= t < |js| ensures js[t] < n - 1 {
      assert js[t] != n - 1;
    }
  }

  lemma PositionsAtSnoc(rows: seq<FeatureRow>, js: seq<nat>)
    requires js != [] && forall t :: 0 <= t < |js| ==> js[t] < |rows|
    ensures PositionsAt(rows, js) == PositionsAt(rows, js[..|js| - 1]) + [rows[js[|js| - 1]].rec.position]
  {
  }

  /** Given the increasing list `js` of every earlier row of row i's group,
      the form is missing exactly when `js` is empty, and is otherwise the
      mean position of the rows at the last min(|js|, 3) indices of `js`. */
  lemma ShiftedFormWindow(rows: seq<FeatureRow>, i: nat, g: Grouping, js: seq<nat>)
    requires i < |rows|
    requires GroupIndices(rows, i, GroupKey(rows[i], g), g, js)
    ensures ShiftedForm(rows, i, g).None? <==> js == []
    ensures js != [] ==>
              ShiftedForm(rows, i, g) == Some(Average(PositionsAt(rows, js[|js| - Min(FormWindow, |js|)..])))
  {
    GroupBeforeIndices(rows, i, GroupKey(rows[i], g), g, js);
    var a := |js| - Min(FormWindow, |js|);
    assert PositionsAt(rows, js)[a..] == PositionsAt(rows, js[a..]);
  }

  // ------------------------------------------------------------ the passes

  /** Sorts by (key, date) and stores the key's shifted form in the row. */
  function FormPass(rows: seq<FeatureRow>, g: Grouping): (out: seq<FeatureRow>)
    ensures |out| == |rows|
  {
    var sorted := SortBy(rows, ByKeyDate(g));
    seq(|sorted|, i requires 0 <= i < |sorted| => SetForm(sorted[i], g, ShiftedForm(sorted, i, g)))
  }

  /** Stores a form in the grouping's own column. */
  function SetForm(r: FeatureRow, g: Grouping, form: Option<real>): FeatureRow {
    match g
    case ByDriver => r.(driverForm := form)
    case ByConstructor => r.(constructorForm := form)
  }

  /** The form column the grouping fills. */
  function FormOf(r: FeatureRow, g: Grouping): Option<real> {
    match g
    case ByDriver => r.driverForm
    case ByConstructor => r.constructorForm
  }

  /** `df['grid_advantage'] = df['grid'] - df['position']`. */
  function GridPass(rows: seq<FeatureRow>): (out: seq<FeatureRow>)
    ensures |out| == |rows|
  {
    seq(|rows|, i requires 0 <= i < |rows| => rows[i].(gridAdvantage := Some(rows[i].rec.grid - rows[i].rec.position)))
  }

  /** The saved feature table. */
  function Generate(df: seq<RaceRecord>): seq<FeatureRow> {
    GridPass(FormTable(df))
  }

  /** A form pass keeps each row's record and only reorders the rows. */
  lemma FormPassRecords(rows: seq<FeatureRow>, g: Grouping)
    ensures forall i :: 0 <= i < |rows| ==> FormPass(rows, g)[i].rec == SortBy(rows, ByKeyDate(g))[i].rec
    ensures multiset(Recs(FormPass(rows, g))) == multiset(Recs(rows))
  {
    var sorted := SortBy(rows, ByKeyDate(g));
    var rec := (r: FeatureRow) => r.rec;
    ColumnPointwise(FormPass(rows, g), sorted, rec);
    ColumnPreservesPermutation(sorted, rows, rec);
  }

  /** The pass's output is sorted by (key, date). */
  lemma FormPassSorted(rows: seq<FeatureRow>, g: Grouping)
    ensures SortedBy(FormPass(rows, g), ByKeyDate(g))
  {
    var sorted := SortBy(rows, ByKeyDate(g));
    var out := FormPass(rows, g);
    ByKeyDateOrders(g);
    SortBySorted(rows, ByKeyDate(g));
    forall i, j | 0 <= i < j < |out| ensures ByKeyDate(g)(out[i], out[j]) {
      assert out[i].rec == sorted[i].rec && out[j].rec == sorted[j].rec;
      assert KeyDateLe(sorted[i], sorted[j], g);
    }
  }

  /** Each output row is an input row with the pass's own form column set. */
  lemma FormPassRowFrom(rows: seq<FeatureRow>, g: Grouping, i: nat)
    requires i < |rows|
    ensures exists j :: 0 <= j < |rows| && FormPass(rows, g)[i].rec == rows[j].rec &&
                        FormPass(rows, g)[i].circuitEncoded == rows[j].circuitEncoded &&
                        FormPass(rows, g)[i].gridAdvantage == rows[j].gridAdvantage &&
                        (g == ByDriver ==> FormPass(rows, g)[i].constructorForm == rows[j].constructorForm) &&
                        (g == ByConstructor ==> FormPass(rows, g)[i].driverForm == rows[j].driverForm)
  {
    var sorted := SortBy(rows, ByKeyDate(g));
    InPermutation(sorted, rows, i);
    var j :| 0 <= j < |rows| && rows[j] == sorted[i];
    assert FormPass(rows, g)[i] == SetForm(sorted[i], g, ShiftedForm(sorted, i, g));
  }

  /** The column the pass fills holds, at each row, the shifted form of the
      output table itself (the groupby sees the sorted frame). */
  lemma FormPassForms(rows: seq<FeatureRow>, g: Grouping, i: nat)
    requires i < |rows|
    ensures FormOf(FormPass(rows, g)[i], g) == ShiftedForm(FormPass(rows, g), i, g)
  {
    var sorted := SortBy(rows, ByKeyDate(g));
    var out := FormPass(rows, g);
    FormPassRecords(rows, g);
    assert out[i] == SetForm(sorted[i], g, ShiftedForm(sorted, i, g));
    assert GroupKey(out[i], g) == GroupKey(sorted[i], g);
    GroupBeforeSameRecs(out, sorted, i, GroupKey(out[i], g), g);
  }

  /** Two tables with the same records have the same earlier positions. */
  lemma {:induction false} GroupBeforeSameRecs(rows: seq<FeatureRow>, other: seq<FeatureRow>, n: nat, k: string, g: Grouping)
    requires n <= |rows| && n <= |other|
    requires forall j :: 0 <= j < n ==> rows[j].rec == other[j].rec
    ensures GroupBefore(rows, n, k, g) == GroupBefore(other, n, k, g)
  {
    if n > 0 {
      GroupBeforeSameRecs(rows, other, n - 1, k, g);
    }
  }

  /** In a table sorted by (key, date), the group's earlier rows are its
      races on or before this row's date, and every race of the group dated
      strictly earlier sits above it. */
  lemma SortedGroupOrder(rows: seq<FeatureRow>, g: Grouping, i: nat, j: nat)
    requires SortedBy(rows, ByKeyDate(g))
    requires i < |rows| && j < |rows| && GroupKey(rows[i], g) == GroupKey(rows[j], g)
    ensures j < i ==> rows[j].rec.date <= rows[i].rec.date
    ensures rows[j].rec.date < rows[i].rec.date ==> j < i
  {
    LessIrreflexive(GroupKey(rows[i], g));
  }

  /** Every row's grid advantage is its grid minus its own finishing position. */
  predicate AdvantageSet(rows: seq<FeatureRow>) {
    forall i :: 0 <= i < |rows| ==> rows[i].gridAdvantage == Some(rows[i].rec.grid - rows[i].rec.position)
  }

  /** Grid advantage is grid minus the row's own finishing position; every
      other column is kept. */
  lemma GridPassSpec(rows: seq<FeatureRow>)
    ensures Recs(GridPass(rows)) == Recs(rows)
    ensures forall i :: 0 <= i < |rows| ==>
      GridPass(rows)[i].gridAdvantage == Some(rows[i].rec.grid - rows[i].rec.position) &&
      GridPass(rows)[i].circuitEncoded == rows[i].circuitEncoded &&
      GridPass(rows)[i].driverForm == rows[i].driverForm &&
      GridPass(rows)[i].constructorForm == rows[i].constructorForm
    ensures forall i :: 0 <= i < |rows| ==> GridPass(rows)[i].rec == rows[i].rec
    ensures AdvantageSet(GridPass(rows))
    ensures SortedBy(rows, ByKeyDate(ByConstructor)) ==> SortedBy(GridPass(rows), ByKeyDate(ByConstructor))
  {
    ColumnPointwise(GridPass(rows), rows, (r: FeatureRow) => r.rec);
  }

  /** A form pass keeps every row's circuit code. */
  lemma FormPassCoded(rows: seq<FeatureRow>, g: Grouping, circuits: seq<string>)
    requires AllCoded(rows, circuits)
    ensures AllCoded(FormPass(rows, g), circuits)
  {
    forall i | 0 <= i < |rows|
      ensures FormPass(rows, g)[i].circuitEncoded == EncodeCircuit(FormPass(rows, g)[i].rec.circuit, circuits)
    {
      FormPassRowFrom(rows, g, i);
    }
  }

  /** The table after both form passes, before grid advantage. */
  function FormTable(df: seq<RaceRecord>): seq<FeatureRow> {
    FormPass(FormPass(Encoded(df), ByDriver), ByConstructor)
  }

  lemma FormTableSpec(df: seq<RaceRecord>)
    ensures |FormTable(df)| == |df|
    ensures multiset(Recs(FormTable(df))) == multiset(df)
    ensures AllCoded(FormTable(df), CircuitNames(df))
    ensures SortedBy(FormTable(df), ByKeyDate(ByConstructor))
  {
    var encoded := Encoded(df);
    var byDriver := FormPass(encoded, ByDriver);
    EncodedSpec(df);
    FormPassRecords(encoded, ByDriver);
    FormPassRecords(byDriver, ByConstructor);
    FormPassCoded(encoded, ByDriver, CircuitNames(df));
    FormPassCoded(byDriver, ByConstructor, CircuitNames(df));
    FormPassSorted(byDriver, ByConstructor);
  }

  /** The saved table holds the input's races, each once, sorted by
      (constructor, date), with circuit codes from the table's own circuits
      and grid advantage against the row's own result. */
  lemma GenerateSpec(df: seq<RaceRecord>)
    ensures var out := Generate(df);
            && |out| == |df|
            && multiset(Recs(out)) == multiset(df)
            && AllCoded(out, CircuitNames(df))
            && SortedBy(out, ByKeyDate(ByConstructor))
            && AdvantageSet(out)
  {
    var table := FormTable(df);
    assert Generate(df) == GridPass(table);
    FormTableSpec(df);
    GridPassSpec(table);
  }

  /** The constructor form of each saved row is the shifted form of the
      saved table itself. */
  lemma GenerateConstructorForm(df: seq<RaceRecord>, i: nat)
    requires i < |Generate(df)|
    ensures Generate(df)[i].constructorForm == ShiftedForm(Generate(df), i, ByConstructor)
  {
    var byDriver := FormPass(Encoded(df), ByDriver);
    var byTeam := FormPass(byDriver, ByConstructor);
    var out := GridPass(byTeam);
    GridPassSpec(byTeam);
    FormPassForms(byDriver, ByConstructor, i);
    GroupBeforeSameRecs(out, byTeam, i, GroupKey(out[i], ByConstructor), ByConstructor);
  }

  /** The driver form of each saved row is the shifted form, at the same
      race, of the table sorted by (driver, date). */
  lemma GenerateDriverForm(df: seq<RaceRecord>, i: nat)
    requires i < |Generate(df)|
    ensures var byDriver := FormPass(Encoded(df), ByDriver);
            exists j :: 0 <= j < |byDriver| && byDriver[j].rec == Generate(df)[i].rec &&
                        Generate(df)[i].driverForm == ShiftedForm(byDriver, j, ByDriver)
  {
    var encoded := Encoded(df);
    var byDriver := FormPass(encoded, ByDriver);
    var byTeam := FormPass(byDriver, ByConstructor);
    GridPassSpec(byTeam);
    FormPassRowFrom(byDriver, ByConstructor, i);
    var j :| 0 <= j < |byDriver| && byTeam[i].rec == byDriver[j].rec && byTeam[i].driverForm == byDriver[j].driverForm;
    FormPassForms(encoded, ByDriver, j);
  }
}
