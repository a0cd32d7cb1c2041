/** Table primitives shared by every script: missing values, first-match
    lookups (the `next(...)`/`values[0]` idiom and the right side of a
    left merge) and means of integer columns. */
module Tables {

  /** A cell that may be missing (pandas NaN / Python None). */
  datatype Option<+T> = None | Some(value: T)

  /** The first row satisfying `p`, if any: pandas' `df[mask].values[0]`
      on a non-empty selection, Python's `next(...)` with a default. */
  function FirstWhere<T>(rows: seq<T>, p: T -> bool): (r: Option<T>)
    ensures r.None? <==> forall i :: 0 <= i < |rows| ==> !p(rows[i])
    ensures r.Some? ==> exists i :: 0 <= i < |rows| && rows[i] == r.value && p(r.value) &&
                                    forall j :: 0 <= j < i ==> !p(rows[j])
  {
    if rows == [] then None
    else if p(rows[0]) then Some(rows[0])
    else
      var r := FirstWhere(rows[1..], p);
      assert r.Some? ==> exists i :: 1 <= i < |rows| && rows[i] == r.value && p(r.value) &&
                                     forall j :: 0 <= j < i ==> !p(rows[j]) by {
        if r.Some? {
          var i :| 0 <= i < |rows[1..]| && rows[1..][i] == r.value && p(r.value) &&
            forall j :: 0 <= j < i ==> !p(rows[1..][j]);
          assert rows[i + 1] == r.value;
          forall j | 0 <= j < i + 1 ensures !p(rows[j]) {
            if j > 0 { assert rows[j] == rows[1..][j - 1]; }
          }
        }
      }
      r
  }

  /** The value of the first row whose key is `key`, if any. */
  function Lookup<K(==), V>(table: seq<(K, V)>, key: K): (r: Option<V>)
    ensures r.Some? ==> (key, r.value) in table
    ensures r.None? <==> forall i :: 0 <= i < |table| ==> table[i].0 != key
  {
    match FirstWhere(table, (kv: (K, V)) => kv.0 == key)
    case None => None
    case Some(kv) => Some(kv.1)
  }

  /** No two rows of the table share a key (a groupby result, one row per driver). */
  predicate DistinctKeys<K(==), V>(table: seq<(K, V)>) {
    forall i, j :: 0 <= i < j < |table| ==> table[i].0 != table[j].0
  }

  /** With distinct keys, the lookup finds exactly the row that carries the key. */
  lemma LookupDistinct<K, V>(table: seq<(K, V)>, key: K, v: V)
    requires DistinctKeys(table)
    ensures Lookup(table, key) == Some(v) <==> (key, v) in table
  {
    if (key, v) in table {
      var k :| 0 <= k < |table| && table[k] == (key, v);
      var r := Lookup(table, key);
      assert r.Some?;
      assert exists i :: 0 <= i < |table| && table[i] == (key, r.value);
      var i :| 0 <= i < |table| && table[i] == (key, r.value);
      assert i == k;
    }
  }

  /** `fillna(default)` on one cell. */
  function Fill<T>(cell: Option<T>, default: T): T {
    match cell
    case Some(v) => v
    case None => default
  }

  function Sum(xs: seq<int>): int {
    if xs == [] then 0 else Sum(xs[..|xs| - 1]) + xs[|xs| - 1]
  }

  /** Arithmetic mean of a non-empty integer column, as pandas' `mean()` returns it. */
  function Average(xs: seq<int>): real
    requires xs != []
  {
    Sum(xs) as real / |xs| as real
  }
}
