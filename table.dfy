/** Queries over a table held as a sequence of rows: `.eq(column, value)`
    filters, `.single()` and primary-key checks. A column is given as a
    function from a row to the column's value. */
module Table {
  import opened Wrappers

  /** Some row has `key(row) == v`. */
  predicate HasKey<T, K(==)>(s: seq<T>, key: T -> K, v: K) {
    exists i :: 0 <= i < |s| && key(s[i]) == v
  }

  /** No two rows share a value of the column (a primary key or a unique column). */
  ghost predicate DistinctKeys<T, K>(s: seq<T>, key: T -> K) {
    forall i, j :: 0 <= i < j < |s| ==> key(s[i]) != key(s[j])
  }

  /** Index of the first row whose column equals `v`. */
  function FirstMatch<T, K(==)>(s: seq<T>, key: T -> K, v: K): (r: Option<nat>)
    ensures r.Some? ==> (r.value < |s| && key(s[r.value]) == v
      && forall j :: 0 <= j < r.value ==> key(s[j]) != v)
    ensures r.None? ==> forall j :: 0 <= j < |s| ==> key(s[j]) != v
    decreases |s|
  {
    if |s| == 0 then None
    else if key(s[0]) == v then Some(0)
    else match FirstMatch(s[1..], key, v)
      case None => None
      case Some(i) => Some(i + 1)
  }

  /** `.eq(column, v).single()`: the index of the matching row when exactly one row
      matches; no rows and several rows are both failures. */
  function Single<T, K(==)>(s: seq<T>, key: T -> K, v: K): (r: Option<nat>)
    ensures r.Some? ==> (r.value < |s| && key(s[r.value]) == v
      && forall j :: 0 <= j < |s| && j != r.value ==> key(s[j]) != v)
    ensures r.None? ==> ((forall j :: 0 <= j < |s| ==> key(s[j]) != v)
      || (exists i, j :: 0 <= i < j < |s| && key(s[i]) == v && key(s[j]) == v))
  {
    match FirstMatch(s, key, v)
    case None => None
    case Some(i) =>
      var later := FirstMatch(s[i + 1..], key, v);
      if later.None? then Some(i)
      else
        assert key(s[i + 1 + later.value]) == v;
        None
  }

  /** On a column whose values are distinct, `.single()` succeeds exactly when a row matches. */
  lemma SingleOfDistinct<T, K>(s: seq<T>, key: T -> K, v: K)
    requires DistinctKeys(s, key)
    ensures Single(s, key, v).Some? <==> HasKey(s, key, v)
  {
  }

  /** `.eq(column, v)` as a list: the matching rows, in table order. */
  function Where<T(!new), K(==)>(s: seq<T>, key: T -> K, v: K): (r: seq<T>)
    ensures forall x :: x in r <==> x in s && key(x) == v
    decreases |s|
  {
    if |s| == 0 then []
    else
      var rest := Where(s[1..], key, v);
      assert s == [s[0]] + s[1..];
      if key(s[0]) == v then [s[0]] + rest else rest
  }

  /** The filter keeps every matching row as many times as the table holds it. */
  lemma {:induction false} WhereCounts<T(!new), K>(s: seq<T>, key: T -> K, v: K)
    ensures forall x :: multiset(Where(s, key, v))[x] == if key(x) == v then multiset(s)[x] else 0
    decreases |s|
  {
    if |s| > 0 {
      WhereCounts(s[1..], key, v);
      assert s == [s[0]] + s[1..];
    }
  }

  /** The filter comes back empty exactly when no row matches. */
  lemma {:induction false} WhereEmpty<T(!new), K>(s: seq<T>, key: T -> K, v: K)
    ensures Where(s, key, v) == [] <==> !HasKey(s, key, v)
    decreases |s|
  {
    if |s| > 0 {
      WhereEmpty(s[1..], key, v);
      if HasKey(s[1..], key, v) {
        var i :| 0 <= i < |s| - 1 && key(s[1..][i]) == v;
        assert key(s[i + 1]) == v;
      }
      if HasKey(s, key, v) && key(s[0]) != v {
        var i :| 0 <= i < |s| && key(s[i]) == v;
        assert key(s[1..][i - 1]) == v;
      }
    }
  }

  /** A row appended to the table is appended to the rows it matches. */
  lemma {:induction false} WhereAppend<T(!new), K>(s: seq<T>, key: T -> K, v: K, x: T)
    ensures Where(s + [x], key, v) == Where(s, key, v) + (if key(x) == v then [x] else [])
    decreases |s|
  {
    var all := s + [x];
    if |s| == 0 {
      assert all == [x];
      assert all[1..] == [];
    } else {
      assert all[0] == s[0];
      assert all[1..] == s[1..] + [x];
      WhereAppend(s[1..], key, v, x);

    }
  }

  /** Appending a row whose key is new keeps the column distinct. */
  lemma AppendKeepsDistinct<T, K>(s: seq<T>, key: T -> K, x: T)
    requires DistinctKeys(s, key) && !HasKey(s, key, key(x))
    ensures DistinctKeys(s + [x], key)
  {
    var t := s + [x];
    forall i, j | 0 <= i < j < |t| ensures key(t[i]) != key(t[j]) {
      if j == |s| { assert t[i] == s[i]; }
    }
  }
}
