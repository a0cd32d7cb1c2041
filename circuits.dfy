/** Circuit encodings. `encode_circuit` in src/simulate_race.py and the
    `LabelEncoder` of src/generate_2024_features.py both number a circuit
    by its position among the distinct circuit names in sorted order;
    pandas categories and scikit-learn classes sort strings the way Python
    compares them, code point by code point. */
module Circuits {

  /** Python's `a < b` on str: lexicographic by code point, a proper prefix first. */
  predicate Less(a: string, b: string) {
    if b == [] then false
    else if a == [] then true
    else if a[0] != b[0] then a[0] < b[0]
    else Less(a[1..], b[1..])
  }

  lemma {:induction false} LessIrreflexive(a: string)
    ensures !Less(a, a)
  {
    if a != [] { LessIrreflexive(a[1..]); }
  }

  lemma {:induction false} LessTransitive(a: string, b: string, c: string)
    requires Less(a, b) && Less(b, c)
    ensures Less(a, c)
  {
    if a != [] && a[0] == b[0] && b[0] == c[0] {
      LessTransitive(a[1..], b[1..], c[1..]);
    }
  }

  lemma {:induction false} LessTotal(a: string, b: string)
    ensures a == b || Less(a, b) || Less(b, a)
  {
    if a != [] && b != [] && a[0] == b[0] {
      LessTotal(a[1..], b[1..]);
      if a[1..] == b[1..] {
        assert a == [a[0]] + a[1..] && b == [b[0]] + b[1..];
      }
    }
  }

  lemma {:induction false} LessAsymmetric(a: string, b: string)
    requires Less(a, b)
    ensures !Less(b, a)
  {
    if a != [] && a[0] == b[0] {
      LessAsymmetric(a[1..], b[1..]);
    }
  }

  predicate StrictlySorted(s: seq<string>) {
    forall i, j :: 0 <= i < j < |s| ==> Less(s[i], s[j])
  }

  /** Adds a name to a sorted list of distinct names, unless it is there already. */
  function InsertName(x: string, s: seq<string>): seq<string> {
    if s == [] then [x]
    else if x == s[0] then s
    else if Less(x, s[0]) then [x] + s
    else [s[0]] + InsertName(x, s[1..])
  }

  /** Inserting keeps the list sorted and adds exactly the new name. */
  lemma {:induction false} InsertNameSpec(x: string, s: seq<string>)
    requires StrictlySorted(s)
    ensures StrictlySorted(InsertName(x, s))
    ensures forall n :: n in InsertName(x, s) <==> n == x || n in s
  {
    if s == [] {
    } else if x == s[0] {
    } else if Less(x, s[0]) {
      var r := [x] + s;
      forall i, j | 0 <= i < j < |r| ensures Less(r[i], r[j]) {
        if i == 0 && j > 1 { LessTransitive(x, s[0], s[j - 1]); }
      }
    } else {
      LessTotal(x, s[0]);
      InsertNameSpec(x, s[1..]);
      var t := InsertName(x, s[1..]);
      var r := [s[0]] + t;
      forall i, j | 0 <= i < j < |r| ensures Less(r[i], r[j]) {
        if i == 0 {
          assert r[j] in t;
          if r[j] != x {
            var k :| 0 <= k < |s[1..]| && s[1..][k] == r[j];
            assert Less(s[0], s[k + 1]);
          }
        }
      }
      assert s == [s[0]] + s[1..];
    }
  }

  /** `df['circuit'].astype('category').cat.categories`: the distinct names, sorted. */
  function Categories(names: seq<string>): (cats: seq<string>)
    ensures StrictlySorted(cats)
    ensures forall n :: n in cats <==> n in names
  {
    if names == [] then []
    else
      var rest := Categories(names[1..]);
      InsertNameSpec(names[0], rest);
      assert names == [names[0]] + names[1..];
      InsertName(names[0], rest)
  }

  /** Position of `x` in `s`, -1 when absent (`s.index(x) if x in s else -1`). */
  function Position(s: seq<string>, x: string): (i: int)
    ensures -1 <= i < |s|
    ensures i == -1 <==> x !in s
    ensures i >= 0 ==> s[i] == x && x !in s[..i]
  {
    if s == [] then -1
    else if s[0] == x then 0
    else
      var j := Position(s[1..], x);
      assert j >= 0 ==> s[..j + 1] == [s[0]] + s[1..][..j];
      if j == -1 then -1 else j + 1
  }

  /** `encode_circuit(name, df)`: the index of the name among the sorted
      distinct circuit names of the table, -1 exactly when it is absent. */
  function EncodeCircuit(name: string, circuits: seq<string>): (code: int)
    ensures -1 <= code < |Categories(circuits)|
    ensures code == -1 <==> name !in circuits
    ensures code >= 0 ==> Categories(circuits)[code] == name
  {
    Position(Categories(circuits), name)
  }

  /** In a strictly sorted list, index order is name order. */
  lemma SortedIndexOrder(s: seq<string>, i: nat, j: nat)
    requires StrictlySorted(s)
    requires i < |s| && j < |s|
    ensures Less(s[i], s[j]) <==> i < j
  {
    if i < j {
    } else if i == j {
      LessIrreflexive(s[i]);
    } else {
      LessAsymmetric(s[j], s[i]);
    }
  }

  /** Codes of known circuits: equal names get equal codes, and codes follow name order. */
  lemma EncodeCircuitOrder(a: string, b: string, circuits: seq<string>)
    requires a in circuits && b in circuits
    ensures EncodeCircuit(a, circuits) >= 0
    ensures a == b <==> EncodeCircuit(a, circuits) == EncodeCircuit(b, circuits)
    ensures Less(a, b) <==> EncodeCircuit(a, circuits) < EncodeCircuit(b, circuits)
  {
    SortedIndexOrder(Categories(circuits), EncodeCircuit(a, circuits), EncodeCircuit(b, circuits));
  }

  /** `LabelEncoder().fit_transform(column)`: each row's code among the column's sorted distinct values. */
  function LabelEncode(column: seq<string>): (codes: seq<int>)
    ensures |codes| == |column|
  {
    seq(|column|, i requires 0 <= i < |column| => EncodeCircuit(column[i], column))
  }

  /** Label codes lie in 0..k-1 for k distinct circuits, equal names share a
      code, and code order is name order. */
  lemma LabelEncodeSpec(column: seq<string>, i: nat, j: nat)
    requires i < |column| && j < |column|
    ensures 0 <= LabelEncode(column)[i] < |Categories(column)|
    ensures column[i] == column[j] <==> LabelEncode(column)[i] == LabelEncode(column)[j]
    ensures Less(column[i], column[j]) <==> LabelEncode(column)[i] < LabelEncode(column)[j]
  {
    EncodeCircuitOrder(column[i], column[j], column);
  }
}
