/** Optional values, outcomes, and sums over the rows of a table. */
module Totals {

  datatype Option<+T> = None | Some(value: T)

  /** The outcome of a service call: its value, or the error code it raises. */
  datatype Result<+T> = Ok(value: T) | Err(code: string)

  /** `aggregate(Sum(...))` and `count()`: the sum of a weight over all rows. */
  function Total<T>(weight: T -> nat, rows: seq<T>): nat {
    if rows == [] then 0 else Total(weight, rows[..|rows| - 1]) + weight(rows[|rows| - 1])
  }

  lemma TotalAppend<T>(weight: T -> nat, rows: seq<T>, row: T)
    ensures Total(weight, rows + [row]) == Total(weight, rows) + weight(row)
  {
    assert (rows + [row])[..|rows|] == rows;
  }

  lemma {:induction false} TotalUpdate<T>(weight: T -> nat, rows: seq<T>, i: nat, row: T)
    requires i < |rows|
    ensures Total(weight, rows[i := row]) + weight(rows[i]) == Total(weight, rows) + weight(row)
  {
    var last := |rows| - 1;
    if i == last {
      assert rows[i := row][..last] == rows[..last];
    } else {
      assert rows[i := row][..last] == rows[..last][i := row];
      TotalUpdate(weight, rows[..last], i, row);
    }
  }

  /** Row by row no heavier: no heavier in total. */
  lemma {:induction false} TotalMono<T>(small: T -> nat, smalls: seq<T>, large: T -> nat, larges: seq<T>)
    requires |smalls| == |larges| && forall i :: 0 <= i < |smalls| ==> small(smalls[i]) <= large(larges[i])
    ensures Total(small, smalls) <= Total(large, larges)
  {
    if smalls != [] {
      var last := |smalls| - 1;
      TotalMono(small, smalls[..last], large, larges[..last]);
    }
  }

  lemma {:induction false} TotalBoundsEach<T>(weight: T -> nat, rows: seq<T>, i: nat)
    requires i < |rows|
    ensures weight(rows[i]) <= Total(weight, rows)
  {
    var last := |rows| - 1;
    if i < last { TotalBoundsEach(weight, rows[..last], i); }
  }

  lemma {:induction false} CountedRows<T>(weight: T -> nat, rows: seq<T>, chosen: set<nat>)
    requires forall i :: 0 <= i < |rows| ==> weight(rows[i]) == if i in chosen then 1 else 0
    requires forall i :: i in chosen ==> i < |rows|
    ensures Total(weight, rows) == |chosen|
  {
    if rows == [] {
      assert chosen == {};
    } else {
      var last := |rows| - 1;
      CountedRows(weight, rows[..last], chosen - {last});
    }
  }

  /** `filter(...).first()` where at most one row can match: the position of the last row that does. */
  function Find<T>(good: T -> bool, rows: seq<T>): (r: Option<nat>)
    ensures r.Some? ==> r.value < |rows| && good(rows[r.value])
  {
    if rows == [] then None
    else if good(rows[|rows| - 1]) then Some(|rows| - 1)
    else Find(good, rows[..|rows| - 1])
  }

  lemma {:induction false} FindSpec<T>(good: T -> bool, rows: seq<T>)
    ensures Find(good, rows).None? <==> forall i :: 0 <= i < |rows| ==> !good(rows[i])
  {
    if rows != [] { FindSpec(good, rows[..|rows| - 1]); }
  }
}
