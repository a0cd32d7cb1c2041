/** The row reordering behind pandas' `sort_values`: a sort of a sequence
    by a total preorder. pandas' default single-column sort is not stable,
    so nothing below promises how rows with equal keys are arranged; the
    definition is an insertion sort, and only its sortedness and the fact
    that it is a permutation are used. */
module Sorting {

  /** `le` compares every pair and is transitive: the order a sort key induces. */
  ghost predicate TotalPreorder<T(!new)>(le: (T, T) -> bool) {
    && (forall x, y :: le(x, y) || le(y, x))
    && (forall x, y, z :: le(x, y) && le(y, z) ==> le(x, z))
  }

  predicate SortedBy<T>(s: seq<T>, le: (T, T) -> bool) {
    forall i, j :: 0 <= i < j < |s| ==> le(s[i], s[j])
  }

  /** Puts `x` in front of the first element it does not follow. */
  function Insert<T>(x: T, s: seq<T>, le: (T, T) -> bool): (r: seq<T>)
    ensures multiset(r) == multiset(s) + multiset{x}
    ensures |r| == |s| + 1
  {
    if s == [] then [x]
    else if le(x, s[0]) then [x] + s
    else
      assert s == [s[0]] + s[1..];
      [s[0]] + Insert(x, s[1..], le)
  }

  lemma {:induction false} InsertSorted<T(!new)>(x: T, s: seq<T>, le: (T, T) -> bool)
    requires TotalPreorder(le)
    requires SortedBy(s, le)
    ensures SortedBy(Insert(x, s, le), le)
  {
    if s == [] {
    } else if le(x, s[0]) {
      var r := Insert(x, s, le);
      forall i, j | 0 <= i < j < |r| ensures le(r[i], r[j]) {
        if i == 0 && j > 1 { assert le(s[0], s[j - 1]); }
      }
    } else {
      assert le(s[0], x);
      InsertSorted(x, s[1..], le);
      var t := Insert(x, s[1..], le);
      var r := [s[0]] + t;
      forall i, j | 0 <= i < j < |r| ensures le(r[i], r[j]) {
        if i == 0 {
          assert r[j] in multiset(t);
          assert r[j] in multiset(s[1..]) + multiset{x};
          if r[j] != x {
            var k :| 0 <= k < |s[1..]| && s[1..][k] == r[j];
            assert le(s[0], s[k + 1]);
          }
        }
      }
    }
  }

  /** `s` sorted by `le`: a permutation of `s` whose elements ascend. */
  function SortBy<T>(s: seq<T>, le: (T, T) -> bool): (r: seq<T>)
    ensures multiset(r) == multiset(s)
    ensures |r| == |s|
  {
    if s == [] then []
    else
      assert s == [s[0]] + s[1..];
      Insert(s[0], SortBy(s[1..], le), le)
  }

  lemma {:induction false} SortBySorted<T(!new)>(s: seq<T>, le: (T, T) -> bool)
    requires TotalPreorder(le)
    ensures SortedBy(SortBy(s, le), le)
  {
    if s != [] {
      SortBySorted(s[1..], le);
      InsertSorted(s[0], SortBy(s[1..], le), le);
    }
  }

  /** The column `f` of a table. */
  function Column<T, U>(s: seq<T>, f: T -> U): (r: seq<U>)
    ensures |r| == |s|
  {
    if s == [] then [] else [f(s[0])] + Column(s[1..], f)
  }

  /** Row i of a column is the projection of row i. */
  lemma {:induction false} ColumnAt<T, U>(s: seq<T>, f: T -> U, i: nat)
    requires i < |s|
    ensures Column(s, f)[i] == f(s[i])
  {
    if i > 0 { ColumnAt(s[1..], f, i - 1); }
  }

  /** Two tables with the same column pointwise. */
  lemma ColumnPointwise<T, U>(s: seq<T>, t: seq<T>, f: T -> U)
    requires |s| == |t|
    requires forall i :: 0 <= i < |s| ==> f(s[i]) == f(t[i])
    ensures Column(s, f) == Column(t, f)
  {
    forall i | 0 <= i < |s| ensures Column(s, f)[i] == Column(t, f)[i] {
      ColumnAt(s, f, i);
      ColumnAt(t, f, i);
    }
  }

  lemma {:induction false} ColumnAppend<T, U>(x: seq<T>, y: seq<T>, f: T -> U)
    ensures Column(x + y, f) == Column(x, f) + Column(y, f)
  {
    if x != [] {
      assert (x + y)[1..] == x[1..] + y;
      ColumnAppend(x[1..], y, f);
    } else {
      assert x + y == y;
    }
  }

  lemma {:induction false} RemoveAt<T>(b: seq<T>, k: nat)
    requires k < |b|
    ensures multiset(b[..k] + b[k + 1..]) == multiset(b) - multiset{b[k]}
  {
    assert b == b[..k] + [b[k]] + b[k + 1..];
  }

  lemma {:induction false} ColumnRemoveAt<T, U>(b: seq<T>, k: nat, f: T -> U)
    requires k < |b|
    ensures multiset(Column(b, f)) == multiset(Column(b[..k] + b[k + 1..], f)) + multiset{f(b[k])}
  {
    var left, right := Column(b[..k], f), Column(b[k + 1..], f);
    assert b[k..] == [b[k]] + b[k + 1..];
    assert b == b[..k] + b[k..];
    ColumnAppend(b[..k], b[k..], f);
    ColumnAppend([b[k]], b[k + 1..], f);
    ColumnAppend(b[..k], b[k + 1..], f);
    assert Column([b[k]], f) == [f(b[k])];
    assert Column(b, f) == left + ([f(b[k])] + right);
  }

  /** Every element of a table occurs in any permutation of it. */
  lemma InPermutation<T>(a: seq<T>, b: seq<T>, i: nat)
    requires multiset(a) == multiset(b) && i < |a|
    ensures exists k :: 0 <= k < |b| && b[k] == a[i]
  {
    assert a[i] in multiset(a);
    assert a[i] in b;
  }

  /** Projecting a column out of two permutations of one table gives permutations. */
  lemma {:induction false} ColumnPreservesPermutation<T, U>(a: seq<T>, b: seq<T>, f: T -> U)
    requires multiset(a) == multiset(b)
    ensures multiset(Column(a, f)) == multiset(Column(b, f))
  {
    if a != [] {
      InPermutation(a, b, 0);
      var k :| 0 <= k < |b| && b[k] == a[0];
      var rest := b[..k] + b[k + 1..];
      PermutationRest(a, b, k);
      ColumnPreservesPermutation(a[1..], rest, f);
      ColumnRemoveAt(b, k, f);
      ColumnRemoveAt(a, 0, f);
      assert a[..0] + a[1..] == a[1..];
    }
  }

  /** Taking the first element out of one permutation and the same element
      out of the other leaves permutations. */
  lemma PermutationRest<T>(a: seq<T>, b: seq<T>, k: nat)
    requires multiset(a) == multiset(b) && a != [] && k < |b| && b[k] == a[0]
    ensures multiset(a[1..]) == multiset(b[..k] + b[k + 1..])
  {
    RemoveAt(b, k);
    RemoveAt(a, 0);
    assert a[..0] + a[1..] == a[1..];
  }
}
