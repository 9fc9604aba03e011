/** Rows kept under a pair of integers: `{key: row for ...}` followed by `sorted(values, key=...)`. */
module Ordering {
  import opened Totals

  datatype Key = Key(major: int, minor: int)

  predicate Less(a: Key, b: Key) {
    a.major < b.major || (a.major == b.major && a.minor < b.minor)
  }

  ghost predicate StrictlySorted<T>(key: T -> Key, rows: seq<T>) {
    forall i, j :: 0 <= i < j < |rows| ==> Less(key(rows[i]), key(rows[j]))
  }

  /** Assign to the dictionary kept in key order: replace the row with that key, or insert. */
  function Assign<T>(key: T -> Key, rows: seq<T>, row: T): seq<T> {
    if rows == [] then [row]
    else if Less(key(row), key(rows[0])) then [row] + rows
    else if key(row) == key(rows[0]) then [row] + rows[1..]
    else [rows[0]] + Assign(key, rows[1..], row)
  }

  /** The dictionary of all rows, later ones winning, listed in key order. */
  function UniqueSorted<T>(key: T -> Key, rows: seq<T>): seq<T> {
    if rows == [] then [] else Assign(key, UniqueSorted(key, rows[..|rows| - 1]), rows[|rows| - 1])
  }

  lemma {:induction false} AssignMembers<T(!new)>(key: T -> Key, rows: seq<T>, row: T)
    requires StrictlySorted(key, rows)
    ensures forall x :: x in Assign(key, rows, row) <==> x == row || (x in rows && key(x) != key(row))
  {
    if rows != [] {
      assert rows == [rows[0]] + rows[1..];
      assert forall x :: x in rows[1..] ==> Less(key(rows[0]), key(x));
      AssignMembers(key, rows[1..], row);
    }
  }

  lemma {:induction false} AssignSorted<T(!new)>(key: T -> Key, rows: seq<T>, row: T)
    requires StrictlySorted(key, rows)
    ensures StrictlySorted(key, Assign(key, rows, row))
  {
    if rows != [] && !Less(key(row), key(rows[0])) && key(row) != key(rows[0]) {
      var tail := rows[1..];
      var rest := Assign(key, tail, row);
      AssignSorted(key, tail, row);
      AssignMembers(key, tail, row);
      assert forall x :: x in tail ==> Less(key(rows[0]), key(x));
      forall x | x in rest ensures Less(key(rows[0]), key(x)) {
        if x != row { assert x in tail; }
      }
    }
  }

  /** When rows with one key are one row, the dictionary loses nothing: the result has the same rows. */
  lemma {:induction false} UniqueSortedSpec<T(!new)>(key: T -> Key, rows: seq<T>)
    requires forall x, y :: x in rows && y in rows && key(x) == key(y) ==> x == y
    ensures StrictlySorted(key, UniqueSorted(key, rows))
    ensures forall x :: x in UniqueSorted(key, rows) <==> x in rows
  {
    if rows != [] {
      var front, last := rows[..|rows| - 1], rows[|rows| - 1];
      assert rows == front + [last];
      UniqueSortedSpec(key, front);
      AssignMembers(key, UniqueSorted(key, front), last);
      AssignSorted(key, UniqueSorted(key, front), last);
    }
  }

  /** A strictly sorted listing is determined by its rows. */
  lemma {:induction false} SortedListingUnique<T(!new)>(key: T -> Key, a: seq<T>, b: seq<T>)
    requires StrictlySorted(key, a) && StrictlySorted(key, b)
    requires forall x :: x in a <==> x in b
    ensures a == b
  {
    assert a != [] ==> a[0] in b;
    assert b != [] ==> b[0] in a;
    if a != [] && b != [] {
      assert a == [a[0]] + a[1..] && b == [b[0]] + b[1..];
      forall x ensures x in a[1..] <==> x in b[1..] {
        assert x in a[1..] <==> x in a && x != a[0];
        assert x in b[1..] <==> x in b && x != b[0];
      }
      SortedListingUnique(key, a[1..], b[1..]);
    }
  }

  /** The first row of lowest rank among those that are good. */
  function Lowest<T>(good: T -> bool, rank: T -> int, rows: seq<T>): Option<T> {
    if rows == [] then None
    else
      var n := |rows| - 1;
      var before := Lowest(good, rank, rows[..n]);
      if good(rows[n]) && (before.None? || rank(rows[n]) < rank(before.value)) then Some(rows[n]) else before
  }

  lemma {:induction false} LowestSpec<T(!new)>(good: T -> bool, rank: T -> int, rows: seq<T>)
    ensures Lowest(good, rank, rows).Some? ==> Lowest(good, rank, rows).value in rows && good(Lowest(good, rank, rows).value)
    ensures forall x :: x in rows && good(x) ==> Lowest(good, rank, rows).Some? && rank(Lowest(good, rank, rows).value) <= rank(x)
  {
    if rows != [] {
      var n := |rows| - 1;
      assert rows == rows[..n] + [rows[n]];
      LowestSpec(good, rank, rows[..n]);
    }
  }
}
