/** Qualifying lap times as the Ergast feed gives them ("1:18.576"): the
    conversion to seconds and the choice of a driver's best Q1/Q2/Q3 time
    (src/simulate_race.py, `time_to_seconds` and the start of the loop in
    `get_race_input`). Python's `int()` and `float()` are modelled on a
    plain grammar: an optional sign, ASCII digits and at most one dot. */
module QualiTime {
  import opened Tables

  // ---------------------------------------------------------------- split

  function Count(s: string, c: char): nat {
    if s == [] then 0 else (if s[0] == c then 1 else 0) + Count(s[1..], c)
  }

  /** Python's `s.split(sep)`: the pieces between separators, empty pieces kept. */
  function Split(s: string, sep: char): (parts: seq<string>)
    ensures |parts| >= 1
    ensures forall i :: 0 <= i < |parts| ==> sep !in parts[i]
  {
    if s == [] then [[]]
    else
      var rest := Split(s[1..], sep);
      if s[0] == sep then [[]] + rest
      else [[s[0]] + rest[0]] + rest[1..]
  }

  /** Python's `sep.join(parts)`. */
  function Join(parts: seq<string>, sep: char): string
    requires |parts| >= 1
  {
    if |parts| == 1 then parts[0] else parts[0] + [sep] + Join(parts[1..], sep)
  }

  /** Splitting yields one piece more than there are separators. */
  lemma {:induction false} SplitCount(s: string, sep: char)
    ensures |Split(s, sep)| == Count(s, sep) + 1
  {
    if s != [] {
      SplitCount(s[1..], sep);
    }
  }

  /** Joining the pieces back gives the string that was split. */
  lemma {:induction false} JoinSplit(s: string, sep: char)
    ensures Join(Split(s, sep), sep) == s
  {
    if s != [] {
      JoinSplit(s[1..], sep);
      var rest := Split(s[1..], sep);
      if s[0] == sep {
        assert Split(s, sep)[1..] == rest;
      } else if |rest| > 1 {
        assert Split(s, sep)[1..] == rest[1..];
        assert Join(rest, sep) == rest[0] + [sep] + Join(rest[1..], sep);
        assert s == [s[0]] + s[1..];
      } else {
        assert s == [s[0]] + s[1..];
      }
    }
  }

  /** A piece free of the separator, followed by anything, stays one piece. */
  lemma {:induction false} SplitPrefix(a: string, t: string, sep: char)
    requires sep !in a
    ensures Split(a + t, sep) == [a + Split(t, sep)[0]] + Split(t, sep)[1..]
  {
    if a != [] {
      var p := Split(t, sep);
      assert (a + t)[0] == a[0] != sep;
      assert (a + t)[1..] == a[1..] + t;
      SplitPrefix(a[1..], t, sep);
      var rest := Split(a[1..] + t, sep);
      assert rest == [a[1..] + p[0]] + p[1..];
      assert Split(a + t, sep) == [[a[0]] + rest[0]] + rest[1..];
      assert [a[0]] + (a[1..] + p[0]) == a + p[0];
    } else {
      var p := Split(t, sep);
      assert a + t == t;
      assert a + p[0] == p[0];
      assert p == [p[0]] + p[1..];
    }
  }

  /** Pieces free of the separator are recovered by splitting their join. */
  lemma {:induction false} SplitJoin(parts: seq<string>, sep: char)
    requires |parts| >= 1
    requires forall i :: 0 <= i < |parts| ==> sep !in parts[i]
    ensures Split(Join(parts, sep), sep) == parts
  {
    if |parts| == 1 {
      SplitPrefix(parts[0], [], sep);
      assert parts[0] + [] == parts[0];
      var e: string := [];
      assert Split(e, sep) == [e];
      assert [e][1..] == [];
      assert parts == [parts[0]];
    } else {
      var tail := Join(parts[1..], sep);
      SplitJoin(parts[1..], sep);
      SplitPrefix(parts[0], [sep] + tail, sep);
      assert parts[0] + [sep] + tail == parts[0] + ([sep] + tail);
      assert ([sep] + tail)[1..] == tail;
      var e: string := [];
      var q := Split([sep] + tail, sep);
      assert q == [e] + parts[1..];
      assert parts[0] + q[0] == parts[0];
      assert parts == [parts[0]] + parts[1..];
    }
  }

  // --------------------------------------------------------------- numbers

  predicate IsDigit(c: char) { '0' <= c <= '9' }

  predicate AllDigits(s: string) { forall i :: 0 <= i < |s| ==> IsDigit(s[i]) }

  function DigitValue(c: char): nat
    requires IsDigit(c)
  {
    (c as int) - ('0' as int)
  }

  /** The number an all-digit string denotes in base 10. */
  function DigitsValue(s: string): nat
    requires AllDigits(s)
  {
    if s == [] then 0 else 10 * DigitsValue(s[..|s| - 1]) + DigitValue(s[|s| - 1])
  }

  /** The value of the digits after a decimal point: 0.d1d2... is
      (d1 + 0.d2...) / 10. */
  function Fraction(digits: string): real
    requires AllDigits(digits)
  {
    if digits == [] then 0.0 else (DigitValue(digits[0]) as real + Fraction(digits[1..])) / 10.0
  }

  function ApplySign(negative: bool, x: real): real {
    if negative then -x else x
  }

  function Unsigned(s: string): string {
    if |s| > 0 && (s[0] == '-' || s[0] == '+') then s[1..] else s
  }

  predicate Negative(s: string) {
    |s| > 0 && s[0] == '-'
  }

  /** Python's `int(s)`: an optional sign and at least one digit. */
  function ParseInt(s: string): (r: Option<int>)
    ensures r.Some? <==> |Unsigned(s)| > 0 && AllDigits(Unsigned(s))
  {
    var u := Unsigned(s);
    if |u| > 0 && AllDigits(u) then
      Some(if Negative(s) then -(DigitsValue(u) as int) else DigitsValue(u))
    else None
  }

  /** An unsigned decimal: digits, or digits, a dot and digits, with at
      least one digit. */
  function ParseUnsignedDecimal(u: string): (r: Option<real>)
    ensures r.Some? ==> |u| > 0 && Count(u, '.') <= 1
    ensures r.Some? ==> forall piece :: piece in Split(u, '.') ==> AllDigits(piece)
  {
    var parts := Split(u, '.');
    SplitCount(u, '.');
    JoinSplit(u, '.');
    if |parts| == 1 then
      if |u| > 0 && AllDigits(u) then Some(DigitsValue(u) as real) else None
    else if |parts| == 2 && AllDigits(parts[0]) && AllDigits(parts[1]) && |parts[0]| + |parts[1]| > 0 then
      Some(DigitsValue(parts[0]) as real + Fraction(parts[1]))
    else None
  }

  /** Python's `float(s)` on an optional sign followed by an unsigned decimal. */
  function ParseFloat(s: string): (r: Option<real>)
    ensures r.Some? ==> |Unsigned(s)| > 0 && Count(Unsigned(s), '.') <= 1
    ensures r.Some? ==> forall piece :: piece in Split(Unsigned(s), '.') ==> AllDigits(piece)
  {
    match ParseUnsignedDecimal(Unsigned(s))
    case None => None
    case Some(x) => Some(ApplySign(Negative(s), x))
  }

  // ------------------------------------------------------- time_to_seconds

  /** `time_to_seconds`: "M:S" becomes M * 60 + S seconds; None, a string
      that is not exactly two ':'-separated pieces, or pieces that do not
      parse, give None. */
  function TimeToSeconds(t: Option<string>): (r: Option<real>)
    ensures t.None? ==> r.None?
    ensures t.Some? && Count(t.value, ':') != 1 ==> r.None?
    ensures r.Some? ==> |Split(t.value, ':')| == 2 &&
                        ParseInt(Split(t.value, ':')[0]).Some? && ParseFloat(Split(t.value, ':')[1]).Some?
  {
    match t
    case None => None
    case Some(s) =>
      var parts := Split(s, ':');
      SplitCount(s, ':');
      if |parts| != 2 then None
      else
        match (ParseInt(parts[0]), ParseFloat(parts[1]))
        case (Some(mins), Some(secs)) => Some(mins as real * 60.0 + secs)
        case _ => None
  }

  // ----------------------------------------------------- values of parses

  lemma {:induction false} DigitsHaveNoSeparators(s: string)
    requires AllDigits(s)
    ensures ':' !in s && '.' !in s && '-' !in s && '+' !in s
  {
    forall i | 0 <= i < |s| ensures s[i] != ':' && s[i] != '.' && s[i] != '-' && s[i] != '+' {
      assert IsDigit(s[i]);
    }
  }

  /** `int(digits)` is the digits' value; leading zeros are allowed ("04" is 4). */
  lemma {:induction false} ParseIntValue(w: string)
    requires |w| > 0 && AllDigits(w)
    ensures ParseInt(w) == Some(DigitsValue(w))
  {
    assert IsDigit(w[0]);
  }

  /** A leading '-' negates what `int()` reads and a leading '+' changes nothing. */
  lemma {:induction false} ParseIntSign(u: string)
    requires |u| > 0 && u[0] != '-' && u[0] != '+'
    ensures ParseInt("+" + u) == ParseInt(u)
    ensures ParseInt("-" + u) == if ParseInt(u).Some? then Some(-ParseInt(u).value) else None
  {
    assert ("+" + u)[1..] == u;
    assert ("-" + u)[1..] == u;
  }

  /** `float(whole + "." + frac)` is whole + 0.frac; either side of the dot
      may be empty, but not both. */
  lemma {:induction false} ParseFloatDecimal(w: string, f: string)
    requires AllDigits(w) && AllDigits(f) && |w| + |f| > 0
    ensures ParseFloat(w + "." + f) == Some(DigitsValue(w) as real + Fraction(f))
  {
    var u := w + "." + f;
    assert Unsigned(u) == u && !Negative(u) by {
      assert u[0] == '.' || IsDigit(u[0]);
    }
    UnsignedDecimalValue(w, f);
  }

  /** "whole.frac" reads as whole + 0.frac. */
  lemma {:induction false} UnsignedDecimalValue(w: string, f: string)
    requires AllDigits(w) && AllDigits(f) && |w| + |f| > 0
    ensures ParseUnsignedDecimal(w + "." + f) == Some(DigitsValue(w) as real + Fraction(f))
  {
    DigitsHaveNoSeparators(w);
    DigitsHaveNoSeparators(f);
    SplitPair(w, f, '.');
  }

  /** `float(digits)` without a dot is the digits' value. */
  lemma {:induction false} ParseFloatWhole(w: string)
    requires |w| > 0 && AllDigits(w)
    ensures ParseFloat(w) == Some(DigitsValue(w) as real)
  {
    DigitsHaveNoSeparators(w);
    assert IsDigit(w[0]);
    SplitJoin([w], '.');
  }

  /** A leading '-' negates what `float()` reads and a leading '+' changes nothing. */
  lemma {:induction false} ParseFloatSign(u: string)
    requires |u| > 0 && u[0] != '-' && u[0] != '+'
    ensures ParseFloat("+" + u) == ParseFloat(u)
    ensures ParseFloat("-" + u) == if ParseFloat(u).Some? then Some(-ParseFloat(u).value) else None
  {
    assert ("+" + u)[1..] == u && ("+" + u)[0] == '+';
    SignedFloat("+" + u, u);
    assert ("-" + u)[1..] == u && ("-" + u)[0] == '-';
    SignedFloat("-" + u, u);
  }

  /** `float` of a signed string is the sign applied to what `float` reads
      after it. */
  lemma {:induction false} SignedFloat(s: string, u: string)
    requires |s| > 0 && (s[0] == '-' || s[0] == '+') && s[1..] == u
    requires |u| > 0 && u[0] != '-' && u[0] != '+'
    ensures ParseFloat(s) == if ParseFloat(u).Some? then Some(ApplySign(s[0] == '-', ParseFloat(u).value)) else None
  {
    assert Unsigned(s) == u && Unsigned(u) == u && !Negative(u);
  }

  /** Two pieces free of the separator, joined by it, split back into the
      two pieces. */
  lemma {:induction false} SplitPair(a: string, b: string, sep: char)
    requires sep !in a && sep !in b
    ensures Split(a + [sep] + b, sep) == [a, b]
  {
    SplitJoin([a, b], sep);
    assert Join([a, b], sep) == a + [sep] + b;
  }

  /** Minutes and seconds around the one ':' are read as minutes and seconds. */
  lemma {:induction false} TimeToSecondsOf(m: string, rest: string, mins: int, secs: real)
    requires ':' !in m && ':' !in rest
    requires ParseInt(m) == Some(mins) && ParseFloat(rest) == Some(secs)
    ensures TimeToSeconds(Some(m + ":" + rest)) == Some(mins as real * 60.0 + secs)
  {
    SplitPair(m, rest, ':');
  }

  /** A lap time as the feed writes it, minutes digits, ':', seconds digits,
      '.', fraction digits, padded with zeros or not ("1:04.314"), is
      M * 60 + S + 0.F seconds. */
  lemma {:induction false} LapTimeValue(m: string, w: string, f: string)
    requires |m| > 0 && AllDigits(m) && AllDigits(w) && AllDigits(f) && |w| + |f| > 0
    ensures TimeToSeconds(Some(m + ":" + (w + "." + f)))
         == Some(DigitsValue(m) as real * 60.0 + (DigitsValue(w) as real + Fraction(f)))
  {
    DigitsHaveNoSeparators(w);
    DigitsHaveNoSeparators(f);
    assert ':' !in w + "." + f;
    forall secs: real | ParseFloat(w + "." + f) == Some(secs)
      ensures TimeToSeconds(Some(m + ":" + (w + "." + f))) == Some(DigitsValue(m) as real * 60.0 + secs)
    {
      MinutesThen(m, w + "." + f, secs);
    }
    ParseFloatDecimal(w, f);
  }

  /** Minute digits, ':' and a seconds piece that reads as `secs` give
      M * 60 + secs. */
  lemma {:induction false} MinutesThen(m: string, rest: string, secs: real)
    requires |m| > 0 && AllDigits(m) && ':' !in rest && ParseFloat(rest) == Some(secs)
    ensures TimeToSeconds(Some(m + ":" + rest)) == Some(DigitsValue(m) as real * 60.0 + secs)
  {
    DigitsHaveNoSeparators(m);
    ParseIntValue(m);
    TimeToSecondsOf(m, rest, DigitsValue(m), secs);
  }

  /** A time without a fraction, "M:S", is M * 60 + S seconds. */
  lemma {:induction false} WholeLapTimeValue(m: string, w: string)
    requires |m| > 0 && AllDigits(m) && |w| > 0 && AllDigits(w)
    ensures TimeToSeconds(Some(m + ":" + w)) == Some(DigitsValue(m) as real * 60.0 + DigitsValue(w) as real)
  {
    DigitsHaveNoSeparators(w);
    forall secs: real | ParseFloat(w) == Some(secs)
      ensures TimeToSeconds(Some(m + ":" + w)) == Some(DigitsValue(m) as real * 60.0 + secs)
    {
      MinutesThen(m, w, secs);
    }
    ParseFloatWhole(w);
  }

  /** The worked example of the feed format: "1:18.576" is 78.576 seconds. */
  lemma ExampleLapTime(lap: string)
    requires lap == "1:18.576"
    ensures TimeToSeconds(Some(lap)) == Some(78.576)
  {
    assert lap == "1" + ":" + ("18" + "." + "576");
    ExampleDigits();
    LapTimeValue("1", "18", "576");
  }

  /** A zero-padded time: "1:04.314" is 64.314 seconds. */
  lemma ExamplePaddedLapTime(lap: string)
    requires lap == "1:04.314"
    ensures TimeToSeconds(Some(lap)) == Some(64.314)
  {
    assert lap == "1" + ":" + ("04" + "." + "314");
    ExamplePaddedDigits();
    LapTimeValue("1", "04", "314");
  }

  lemma ExampleDigits()
    ensures AllDigits("1") && DigitsValue("1") == 1
    ensures AllDigits("18") && DigitsValue("18") == 18
    ensures AllDigits("576") && Fraction("576") == 0.576
  {
    assert DigitsValue("") == 0;
    assert "1"[..0] == "" && "18"[..1] == "1";
    assert "576"[1..] == "76" && "76"[1..] == "6" && "6"[1..] == "";
  }

  lemma ExamplePaddedDigits()
    ensures AllDigits("1") && DigitsValue("1") == 1
    ensures AllDigits("04") && DigitsValue("04") == 4
    ensures AllDigits("314") && Fraction("314") == 0.314
  {
    assert DigitsValue("") == 0;
    assert "1"[..0] == "" && "04"[..1] == "0" && "0"[..0] == "";
    assert "314"[1..] == "14" && "14"[1..] == "4" && "4"[1..] == "";
  }

  // ------------------------------------------------ best qualifying time

  /** One driver's row of the qualifying classification; a session the
      driver did not reach has no key (None). */
  datatype QualiEntry = QualiEntry(driverId: string, q1: Option<string>, q2: Option<string>, q3: Option<string>)

  /** `next((q for q in quali if q.driverId == id), {})`: the first entry of
      the driver, None standing for the empty-dict default. */
  function FindEntry(quali: seq<QualiEntry>, driverId: string): Option<QualiEntry> {
    FirstWhere(quali, (q: QualiEntry) => q.driverId == driverId)
  }

  /** The three session times in seconds; `{}.get(...)` is None for each. */
  function SessionTimes(entry: Option<QualiEntry>): (ts: seq<Option<real>>)
    ensures |ts| == 3
  {
    match entry
    case None => [None, None, None]
    case Some(q) => [TimeToSeconds(q.q1), TimeToSeconds(q.q2), TimeToSeconds(q.q3)]
  }

  /** `[t for t in ts if t is not None]`. */
  function Present(ts: seq<Option<real>>): (xs: seq<real>)
    ensures forall x :: x in xs <==> Some(x) in ts
    ensures (forall i :: 0 <= i < |ts| ==> ts[i].None?) ==> xs == []
  {
    if ts == [] then []
    else
      var rest := Present(ts[1..]);
      assert ts == [ts[0]] + ts[1..];
      match ts[0]
      case None => rest
      case Some(x) => [x] + rest
  }

  /** `min(xs) if xs else None`. */
  function Minimum(xs: seq<real>): (r: Option<real>)
    ensures r.None? <==> xs == []
    ensures r.Some? ==> r.value in xs && forall i :: 0 <= i < |xs| ==> r.value <= xs[i]
  {
    if xs == [] then None
    else
      match Minimum(xs[1..])
      case None => Some(xs[0])
      case Some(m) => if xs[0] <= m then Some(xs[0]) else Some(m)
  }

  /** The driver's qualifying time: the best of the Q1/Q2/Q3 times that parse. */
  function BestTime(quali: seq<QualiEntry>, driverId: string): Option<real> {
    Minimum(Present(SessionTimes(FindEntry(quali, driverId))))
  }

  /** The best time is missing exactly when the driver has no entry or none
      of the entry's three times parses; otherwise it is one of the parsed
      times and no parsed time beats it. */
  lemma BestTimeSpec(quali: seq<QualiEntry>, driverId: string)
    ensures var e := FindEntry(quali, driverId);
            BestTime(quali, driverId).None? <==>
              e.None? || (TimeToSeconds(e.value.q1).None? && TimeToSeconds(e.value.q2).None? && TimeToSeconds(e.value.q3).None?)
    ensures var e := FindEntry(quali, driverId);
            var t := BestTime(quali, driverId);
            t.Some? ==> e.Some? && Some(t.value) in [TimeToSeconds(e.value.q1), TimeToSeconds(e.value.q2), TimeToSeconds(e.value.q3)]
    ensures var e := FindEntry(quali, driverId);
            var t := BestTime(quali, driverId);
            forall x :: e.Some? && Some(x) in [TimeToSeconds(e.value.q1), TimeToSeconds(e.value.q2), TimeToSeconds(e.value.q3)]
              ==> t.Some? && t.value <= x
  {
    var e := FindEntry(quali, driverId);
    var ts := SessionTimes(e);
    var xs := Present(ts);
    if e.Some? {
      var a, b, c := TimeToSeconds(e.value.q1), TimeToSeconds(e.value.q2), TimeToSeconds(e.value.q3);
      assert ts == [a, b, c];
      if a.Some? { assert a.value in xs; }
      if b.Some? { assert b.value in xs; }
      if c.Some? { assert c.value in xs; }
      if xs == [] { assert a.None? && b.None? && c.None?; }
      forall x | Some(x) in ts ensures Minimum(xs).Some? && Minimum(xs).value <= x {
        assert x in xs;
        var i :| 0 <= i < |xs| && xs[i] == x;
      }
    } else {
      assert xs == [];
    }
  }
}
