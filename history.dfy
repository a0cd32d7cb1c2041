/** The historical results table and the queries the scripts run on it:
    an entity's races strictly before a date, the rolling form over the
    last three of them, the race date of a (season, round), and a driver's
    constructor. Dates are whole numbers that order as the calendar does. */
module History {
  import opened Tables
  import opened Sorting

  /** One driver's result in one past race (a row of the historical CSV). */
  datatype RaceRecord = RaceRecord(
    date: int,
    season: int,
    round: int,
    circuit: string,
    driver: string,
    team: string,  // the constructor column
    grid: int,
    position: int)

  /** Whose history is asked for. A constructor that could not be resolved
      is None: pandas' `df['constructor'] == None` is False on every row. */
  datatype Entity = Driver(name: string) | Constructor(team: Option<string>)

  predicate Belongs(r: RaceRecord, e: Entity) {
    match e
    case Driver(d) => r.driver == d
    case Constructor(c) => c.Some? && r.team == c.value
  }

  /** `hist[(hist[key] == e) & (hist['date'] < date)]`, rows in table order. */
  function Past(hist: seq<RaceRecord>, e: Entity, date: int): (past: seq<RaceRecord>)
    ensures forall r :: r in past <==> r in hist && Belongs(r, e) && r.date < date
    ensures |past| <= |hist|
  {
    if hist == [] then []
    else
      var rest := Past(hist[1..], e, date);
      assert hist == [hist[0]] + hist[1..];
      if Belongs(hist[0], e) && hist[0].date < date then [hist[0]] + rest else rest
  }

  /** Each of the entity's rows dated before the cutoff appears in the query
      as often as in the table, and no other row appears; so the query's
      length is the number of such rows. */
  lemma {:induction false} PastCount(hist: seq<RaceRecord>, e: Entity, date: int)
    ensures forall r :: multiset(Past(hist, e, date))[r] == if Belongs(r, e) && r.date < date then multiset(hist)[r] else 0
  {
    if hist != [] {
      PastCount(hist[1..], e, date);
      assert hist == [hist[0]] + hist[1..];
    }
  }

  /** The query distributes over a concatenation of tables. */
  lemma {:induction false} PastAppend(x: seq<RaceRecord>, y: seq<RaceRecord>, e: Entity, date: int)
    ensures Past(x + y, e, date) == Past(x, e, date) + Past(y, e, date)
  {
    if x == [] {
      assert x + y == y;
    } else {
      assert (x + y)[1..] == x[1..] + y;
      PastAppend(x[1..], y, e, date);
    }
  }

  /** Records dated on or after the cutoff never reach the query. */
  lemma {:induction false} PastOfLater(later: seq<RaceRecord>, e: Entity, date: int)
    requires forall i :: 0 <= i < |later| ==> later[i].date >= date
    ensures Past(later, e, date) == []
  {
    if later != [] {
      PastOfLater(later[1..], e, date);
    }
  }

  /** Adding records dated on or after the cutoff, anywhere in the table,
      leaves the query unchanged. */
  lemma PastOnlyBefore(hist: seq<RaceRecord>, later: seq<RaceRecord>, e: Entity, date: int)
    requires forall i :: 0 <= i < |later| ==> later[i].date >= date
    ensures Past(hist + later, e, date) == Past(hist, e, date)
    ensures Past(later + hist, e, date) == Past(hist, e, date)
  {
    PastOfLater(later, e, date);
    PastAppend(hist, later, e, date);
    PastAppend(later, hist, e, date);
    assert Past(hist, e, date) + [] == Past(hist, e, date);
  }

  /** A constructor that could not be resolved has no history at all. */
  lemma {:induction false} UnresolvedHasNoPast(hist: seq<RaceRecord>, date: int)
    ensures Past(hist, Constructor(None), date) == []
  {
    if hist != [] {
      UnresolvedHasNoPast(hist[1..], date);
    }
  }

  /** `hist[(hist['season'] == season) & (hist['date'] < date)]`. */
  function SeasonBefore(hist: seq<RaceRecord>, season: int, date: int): (rows: seq<RaceRecord>)
    ensures forall r :: r in rows <==> r in hist && r.season == season && r.date < date
  {
    if hist == [] then []
    else
      var rest := SeasonBefore(hist[1..], season, date);
      assert hist == [hist[0]] + hist[1..];
      if hist[0].season == season && hist[0].date < date then [hist[0]] + rest else rest
  }

  /** Each same-season row dated before the cutoff appears as often as in
      the table, and no other row appears. */
  lemma {:induction false} SeasonBeforeCount(hist: seq<RaceRecord>, season: int, date: int)
    ensures forall r :: multiset(SeasonBefore(hist, season, date))[r] ==
                        if r.season == season && r.date < date then multiset(hist)[r] else 0
  {
    if hist != [] {
      SeasonBeforeCount(hist[1..], season, date);
      assert hist == [hist[0]] + hist[1..];
    }
  }

  /** Querying the same-season table gives exactly the entity's races of
      that season before the cutoff. */
  lemma SeasonPast(hist: seq<RaceRecord>, season: int, e: Entity, date: int)
    ensures forall r :: r in Past(SeasonBefore(hist, season, date), e, date) <==>
                        r in hist && r.season == season && Belongs(r, e) && r.date < date
    ensures forall r :: multiset(Past(SeasonBefore(hist, season, date), e, date))[r] ==
                        if r.season == season && Belongs(r, e) && r.date < date then multiset(hist)[r] else 0
  {
    SeasonBeforeCount(hist, season, date);
    PastCount(SeasonBefore(hist, season, date), e, date);
  }

  // ------------------------------------------------------------------ form

  const FormWindow: nat := 3
  const DefaultForm: real := 10.0

  function ByDate(): (RaceRecord, RaceRecord) -> bool {
    (a: RaceRecord, b: RaceRecord) => a.date <= b.date
  }

  lemma ByDateOrders()
    ensures TotalPreorder(ByDate())
  {
  }

  function Positions(rs: seq<RaceRecord>): seq<int> {
    Column(rs, (r: RaceRecord) => r.position)
  }

  /** The last three records once sorted by date. */
  function LatestThree(past: seq<RaceRecord>): seq<RaceRecord>
    requires |past| >= FormWindow
  {
    var sorted := SortBy(past, ByDate());
    sorted[|sorted| - FormWindow..]
  }

  /** `past.sort_values('date')['position'].rolling(3).mean().iloc[-1]`
      when there are at least three records, missing otherwise. */
  function RollingForm(past: seq<RaceRecord>): Option<real> {
    if |past| >= FormWindow then Some(Average(Positions(LatestThree(past)))) else None
  }

  /** The form with the 10.0 default for short histories. */
  function Form(past: seq<RaceRecord>): real {
    Fill(RollingForm(past), DefaultForm)
  }

  /** The three records averaged are records of the history, and no other
      record of the history is dated after any of them. */
  lemma {:induction false} LatestThreeAreLatest(past: seq<RaceRecord>)
    requires |past| >= FormWindow
    ensures |LatestThree(past)| == FormWindow
    ensures multiset(LatestThree(past)) <= multiset(past)
    ensures forall r, q :: r in multiset(past) - multiset(LatestThree(past)) && q in LatestThree(past) ==>
                           r.date <= q.date
  {
    var sorted := SortBy(past, ByDate());
    var n := |sorted|;
    var older, latest := sorted[..n - FormWindow], sorted[n - FormWindow..];
    assert sorted == older + latest;
    assert multiset(past) == multiset(older) + multiset(latest);
    ByDateOrders();
    SortBySorted(past, ByDate());
    forall r, q | r in multiset(past) - multiset(latest) && q in latest ensures r.date <= q.date {
      assert r in older;
      SortedSplitByDate(sorted, n - FormWindow, r, q);
    }
  }

  /** In a list sorted by date, a record before a cut is dated no later
      than a record after it. */
  lemma SortedSplitByDate(sorted: seq<RaceRecord>, cut: nat, r: RaceRecord, q: RaceRecord)
    requires SortedBy(sorted, ByDate()) && cut <= |sorted|
    requires r in sorted[..cut] && q in sorted[cut..]
    ensures r.date <= q.date
  {
    var i :| 0 <= i < cut && sorted[..cut][i] == r;
    var j :| 0 <= j < |sorted| - cut && sorted[cut..][j] == q;
    assert sorted[i] == r && sorted[cut + j] == q;
  }

  /** The form: 10.0 with fewer than three past records, otherwise the mean
      position of the three latest ones. */
  lemma FormSpec(past: seq<RaceRecord>)
    ensures |past| < FormWindow ==> Form(past) == DefaultForm
    ensures |past| >= FormWindow ==>
              exists latest: seq<RaceRecord> ::
                && |latest| == FormWindow
                && multiset(latest) <= multiset(past)
                && (forall r, q :: r in multiset(past) - multiset(latest) && q in latest ==> r.date <= q.date)
                && Form(past) == Average(Positions(latest))
    ensures |past| >= FormWindow ==> Form(past) == Average(Positions(LatestThree(past)))
    ensures |past| >= FormWindow ==> |Positions(LatestThree(past))| == FormWindow
  {
    if |past| >= FormWindow {
      LatestThreeAreLatest(past);
      var latest := LatestThree(past);
      assert Form(past) == Average(Positions(latest));
    }
  }

  /** A small table: driver A raced three times, finishing 1, 2 and 3;
      driver B once. */
  function ScenarioTable(): seq<RaceRecord> {
    [RaceRecord(1, 2025, 1, "Bahrain", "A", "X", 1, 1),
     RaceRecord(2, 2025, 2, "Jeddah", "A", "X", 2, 2),
     RaceRecord(3, 2025, 3, "Melbourne", "A", "X", 3, 3),
     RaceRecord(3, 2025, 3, "Melbourne", "B", "Y", 4, 4)]
  }

  /** The query on a single record. */
  lemma PastSingle(r: RaceRecord, e: Entity, date: int)
    ensures Past([r], e, date) == if Belongs(r, e) && r.date < date then [r] else []
  {
    assert [r][1..] == [];
  }

  /** The query on a four-row table, one row at a time. */
  lemma PastOfFour(a1: RaceRecord, a2: RaceRecord, a3: RaceRecord, a4: RaceRecord, e: Entity, date: int)
    ensures Past([a1, a2, a3, a4], e, date) == Past([a1], e, date) + Past([a2], e, date) + Past([a3], e, date) + Past([a4], e, date)
  {
    assert [a1, a2, a3, a4] == [a1] + [a2] + [a3] + [a4];
    PastAppend([a1] + [a2] + [a3], [a4], e, date);
    PastAppend([a1] + [a2], [a3], e, date);
    PastAppend([a1], [a2], e, date);
  }

  /** Driver A's races before date 10 are the table's first three rows. */
  lemma ScenarioPastOfA(t: seq<RaceRecord>)
    requires t == ScenarioTable()
    ensures Past(t, Driver("A"), 10) == t[..3]
  {
    PastThreeOfFour(t, Driver("A"), 10);
  }

  /** In a four-row table, three matching rows before the date and a fourth
      that does not match. */
  lemma PastThreeOfFour(t: seq<RaceRecord>, e: Entity, date: int)
    requires |t| == 4
    requires Belongs(t[0], e) && Belongs(t[1], e) && Belongs(t[2], e) && !Belongs(t[3], e)
    requires t[0].date < date && t[1].date < date && t[2].date < date
    ensures Past(t, e, date) == t[..3]
  {
    assert Past(t, e, date) == Past([t[0]], e, date) + Past([t[1]], e, date) + Past([t[2]], e, date) + Past([t[3]], e, date) by {
      assert t == [t[0], t[1], t[2], t[3]];
      PastOfFour(t[0], t[1], t[2], t[3], e, date);
    }
    assert Past([t[0]], e, date) == [t[0]] by { PastSingle(t[0], e, date); }
    assert Past([t[1]], e, date) == [t[1]] by { PastSingle(t[1], e, date); }
    assert Past([t[2]], e, date) == [t[2]] by { PastSingle(t[2], e, date); }
    assert Past([t[3]], e, date) == [] by { PastSingle(t[3], e, date); }
    assert [t[0]] + [t[1]] + [t[2]] + [] == t[..3];
  }

  /** In a four-row table, only the last row matches, before the date. */
  lemma PastOneOfFour(t: seq<RaceRecord>, e: Entity, date: int)
    requires |t| == 4
    requires !Belongs(t[0], e) && !Belongs(t[1], e) && !Belongs(t[2], e) && Belongs(t[3], e) && t[3].date < date
    ensures Past(t, e, date) == [t[3]]
  {
    assert Past(t, e, date) == Past([t[0]], e, date) + Past([t[1]], e, date) + Past([t[2]], e, date) + Past([t[3]], e, date) by {
      assert t == [t[0], t[1], t[2], t[3]];
      PastOfFour(t[0], t[1], t[2], t[3], e, date);
    }
    assert Past([t[0]], e, date) == [] by { PastSingle(t[0], e, date); }
    assert Past([t[1]], e, date) == [] by { PastSingle(t[1], e, date); }
    assert Past([t[2]], e, date) == [] by { PastSingle(t[2], e, date); }
    assert Past([t[3]], e, date) == [t[3]] by { PastSingle(t[3], e, date); }
    assert [] + [] + [] + [t[3]] == [t[3]];
  }

  /** Three records in date order, finishing 1, 2, 3: sorting keeps them and
      their mean position is 2. */
  lemma ScenarioMeanOfA(a1: RaceRecord, a2: RaceRecord, a3: RaceRecord)
    requires a1.date <= a2.date <= a3.date
    requires a1.position == 1 && a2.position == 2 && a3.position == 3
    ensures SortBy([a1, a2, a3], ByDate()) == [a1, a2, a3]
    ensures Average(Positions([a1, a2, a3])) == 2.0
  {
    SortedThree(a1, a2, a3);
    PositionsThree(a1, a2, a3);
    MeanOneTwoThree();
  }

  lemma PositionsThree(a1: RaceRecord, a2: RaceRecord, a3: RaceRecord)
    ensures Positions([a1, a2, a3]) == [a1.position, a2.position, a3.position]
  {
    var pos := (r: RaceRecord) => r.position;
    assert [a1, a2, a3][1..] == [a2, a3] && [a2, a3][1..] == [a3] && [a3][1..] == [];
    assert Column([a3], pos) == [a3.position];
    assert Column([a2, a3], pos) == [a2.position, a3.position];
  }

  lemma MeanOneTwoThree()
    ensures Average([1, 2, 3]) == 2.0
  {
    assert [1, 2, 3][..2] == [1, 2] && [1, 2][..1] == [1] && [1][..0] == [];
    assert Sum([1, 2, 3]) == 6;
  }

  lemma SortedThree(a1: RaceRecord, a2: RaceRecord, a3: RaceRecord)
    requires a1.date <= a2.date <= a3.date
    ensures SortBy([a1, a2, a3], ByDate()) == [a1, a2, a3]
  {
    assert [a1, a2, a3][1..] == [a2, a3] && [a2, a3][1..] == [a3] && [a3][1..] == [];
    assert SortBy([a3], ByDate()) == [a3];
    assert SortBy([a2, a3], ByDate()) == [a2, a3];
  }

  /** Three earlier races finishing 1, 2, 3 give form 2.0. */
  lemma ScenarioThreeRaces(t: seq<RaceRecord>)
    requires t == ScenarioTable()
    ensures Form(Past(t, Driver("A"), 10)) == 2.0
  {
    ScenarioPastOfA(t);
    assert t[..3] == [t[0], t[1], t[2]];
    ScenarioMeanOfA(t[0], t[1], t[2]);
  }

  /** A single earlier race gives the default form. */
  lemma ScenarioOneRace(t: seq<RaceRecord>)
    requires t == ScenarioTable()
    ensures Form(Past(t, Driver("B"), 10)) == DefaultForm
  {
    PastOneOfFour(t, Driver("B"), 10);
  }

  // ---------------------------------------------------- race-level lookups

  /** The race date: the date of the first (season, round) row, or `today`
      when the table has none. */
  function RaceDate(hist: seq<RaceRecord>, season: int, round: int, today: int): int {
    match FirstWhere(hist, (r: RaceRecord) => r.season == season && r.round == round)
    case Some(r) => r.date
    case None => today
  }

  /** The race date is the date of the first row of the (season, round) when
      there is one, and `today` exactly when there is none. */
  lemma RaceDateSpec(hist: seq<RaceRecord>, season: int, round: int, today: int)
    ensures (forall i :: 0 <= i < |hist| ==> !(hist[i].season == season && hist[i].round == round))
            ==> RaceDate(hist, season, round, today) == today
    ensures forall i :: 0 <= i < |hist| && hist[i].season == season && hist[i].round == round &&
                        (forall j :: 0 <= j < i ==> !(hist[j].season == season && hist[j].round == round))
                        ==> RaceDate(hist, season, round, today) == hist[i].date
  {
    var p := (r: RaceRecord) => r.season == season && r.round == round;
    var f := FirstWhere(hist, p);
    forall i | 0 <= i < |hist| && p(hist[i]) && (forall j :: 0 <= j < i ==> !p(hist[j]))
      ensures RaceDate(hist, season, round, today) == hist[i].date
    {
      var k :| 0 <= k < |hist| && hist[k] == f.value && p(f.value) && forall j :: 0 <= j < k ==> !p(hist[j]);
      assert k == i;
    }
  }

  /** The constructor on the driver's first history row, None for a driver
      with no history (`hist[hist.driver == d]['constructor'].values[0]`). */
  function ConstructorOf(hist: seq<RaceRecord>, driver: string): (c: Option<string>)
    ensures c.None? <==> forall i :: 0 <= i < |hist| ==> hist[i].driver != driver
    ensures c.Some? ==> exists i :: 0 <= i < |hist| && hist[i].driver == driver && hist[i].team == c.value &&
                                    forall j :: 0 <= j < i ==> hist[j].driver != driver
  {
    match FirstWhere(hist, (r: RaceRecord) => r.driver == driver)
    case Some(r) => Some(r.team)
    case None => None
  }

  /** A driver absent from the table gets no constructor, hence the default constructor form. */
  lemma UnknownDriverConstructorForm(hist: seq<RaceRecord>, driver: string, date: int)
    requires forall i :: 0 <= i < |hist| ==> hist[i].driver != driver
    ensures Form(Past(hist, Constructor(ConstructorOf(hist, driver)), date)) == DefaultForm
  {
    UnresolvedHasNoPast(hist, date);
  }
}
