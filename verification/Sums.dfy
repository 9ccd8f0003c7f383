/** Totals over rows of a table. */
module Sums {

  function Sum<T>(rows: seq<T>, weight: T -> int): int {
    if rows == [] then 0 else Sum(rows[..|rows| - 1], weight) + weight(rows[|rows| - 1])
  }

  lemma SumAppend<T>(rows: seq<T>, row: T, weight: T -> int)
    ensures Sum(rows + [row], weight) == Sum(rows, weight) + weight(row)
  {
    assert (rows + [row])[..|rows|] == rows;
  }

  lemma {:induction false} SumSame<T>(rows: seq<T>, rows': seq<T>, weight: T -> int, weight': T -> int)
    requires |rows| == |rows'|
    requires forall i :: 0 <= i < |rows| ==> weight(rows[i]) == weight'(rows'[i])
    ensures Sum(rows, weight) == Sum(rows', weight')
  {
    if rows != [] {
      SumSame(rows[..|rows| - 1], rows'[..|rows| - 1], weight, weight');
    }
  }

  /** Two tables that differ in the weight of one row only. */
  lemma {:induction false} SumDiffersAt<T>(rows: seq<T>, rows': seq<T>, weight: T -> int, weight': T -> int, at: nat)
    requires at < |rows| == |rows'|
    requires forall i :: 0 <= i < |rows| && i != at ==> weight(rows[i]) == weight'(rows'[i])
    ensures Sum(rows', weight') - Sum(rows, weight) == weight'(rows'[at]) - weight(rows[at])
  {
    var n := |rows| - 1;
    if at == n {
      SumSame(rows[..n], rows'[..n], weight, weight');
    } else {
      SumDiffersAt(rows[..n], rows'[..n], weight, weight', at);
    }
  }

  lemma {:induction false} SumNonNegative<T>(rows: seq<T>, weight: T -> int)
    requires forall i :: 0 <= i < |rows| ==> weight(rows[i]) >= 0
    ensures Sum(rows, weight) >= 0
    ensures forall i :: 0 <= i < |rows| ==> weight(rows[i]) <= Sum(rows, weight)
  {
    if rows != [] {
      SumNonNegative(rows[..|rows| - 1], weight);
    }
  }

  /** The total of a weight that splits is the sum of the totals. */
  lemma {:induction false} SumSplits<T>(rows: seq<T>, rows': seq<T>, weight: T -> int, a: T -> int, b: T -> int)
    requires |rows| == |rows'|
    requires forall i :: 0 <= i < |rows| ==> weight(rows'[i]) == a(rows[i]) + b(rows[i])
    ensures Sum(rows', weight) == Sum(rows, a) + Sum(rows, b)
  {
    if rows != [] {
      SumSplits(rows[..|rows| - 1], rows'[..|rows| - 1], weight, a, b);
    }
  }
}
