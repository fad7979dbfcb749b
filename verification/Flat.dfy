/** Rows of numbers stored back to back in one blob, and all-pairs row numbering. */
module Flat {
  import opened Wrappers
  import opened Charts

  function Flatten(rows: seq<seq<nat>>): seq<nat> {
    if rows == [] then [] else Flatten(rows[..|rows| - 1]) + rows[|rows| - 1]
  }

  /** Where row `i` begins. */
  function Offset(rows: seq<seq<nat>>, i: nat): nat
    requires i <= |rows|
  {
    |Flatten(rows[..i])|
  }

  lemma FlattenAppend(rows: seq<seq<nat>>, row: seq<nat>)
    ensures Flatten(rows + [row]) == Flatten(rows) + row
  {
    assert (rows + [row])[..|rows|] == rows;
  }

  lemma SliceOfPrefix(a: seq<nat>, b: seq<nat>, lo: nat, hi: nat)
    requires lo <= hi <= |a|
    ensures (a + b)[lo..hi] == a[lo..hi]
  {
  }

  /** Cutting the blob at two neighbouring offsets gives back the row between them. */
  lemma {:induction false} SliceIsRow(rows: seq<seq<nat>>, i: nat)
    requires i < |rows|
    ensures Offset(rows, i) <= Offset(rows, i + 1) <= |Flatten(rows)|
    ensures Offset(rows, i + 1) == Offset(rows, i) + |rows[i]|
    ensures Flatten(rows)[Offset(rows, i)..Offset(rows, i + 1)] == rows[i]
  {
    var n := |rows| - 1;
    assert rows[..i + 1] == rows[..i] + [rows[i]];
    FlattenAppend(rows[..i], rows[i]);
    if i == n {
      assert rows[..i + 1] == rows;
    } else {
      SliceIsRow(rows[..n], i);
      assert rows[..n][..i] == rows[..i] && rows[..n][..i + 1] == rows[..i + 1];
      var front := Flatten(rows[..n]);
      assert Flatten(rows) == front + rows[n];
      SliceOfPrefix(front, rows[n], Offset(rows, i), Offset(rows, i + 1));
    }
  }

  /** Rows that are each no longer than another list's flatten to no more. */
  lemma {:induction false} FlattenMonotone(a: seq<seq<nat>>, b: seq<seq<nat>>)
    requires |a| <= |b| && forall i :: 0 <= i < |a| ==> |a[i]| <= |b[i]|
    ensures |Flatten(a)| <= |Flatten(b)|
  {
    if |b| > 0 {
      var n := |b| - 1;
      if |a| == |b| {
        FlattenMonotone(a[..n], b[..n]);
      } else {
        FlattenMonotone(a, b[..n]);
      }
    }
  }

  lemma {:induction false} FlattenAtLeast(rows: seq<seq<nat>>, len: nat)
    requires forall i :: 0 <= i < |rows| ==> len <= |rows[i]|
    ensures |rows| * len <= |Flatten(rows)|
  {
    if |rows| > 0 {
      FlattenAtLeast(rows[..|rows| - 1], len);
      assert |rows| * len == (|rows| - 1) * len + len;
    }
  }

  lemma {:induction false} FlattenAtMost(rows: seq<seq<nat>>, len: nat)
    requires forall i :: 0 <= i < |rows| ==> |rows[i]| <= len
    ensures |Flatten(rows)| <= |rows| * len
  {
    if |rows| > 0 {
      FlattenAtMost(rows[..|rows| - 1], len);
      assert |rows| * len == (|rows| - 1) * len + len;
    }
  }

  lemma {:induction false} FlattenElements(rows: seq<seq<nat>>, bound: nat)
    requires forall i, j :: 0 <= i < |rows| && 0 <= j < |rows[i]| ==> rows[i][j] < bound
    ensures forall k :: 0 <= k < |Flatten(rows)| ==> Flatten(rows)[k] < bound
  {
    if |rows| > 0 {
      FlattenElements(rows[..|rows| - 1], bound);
    }
  }

  /** Row-major numbering of pairs: `i * n + j` with `j < n`. */
  function PairIndex(i: nat, j: nat, n: nat): nat {
    i * n + j
  }

  lemma MulMonotone(a: nat, b: nat, n: nat)
    ensures a <= b ==> a * n <= b * n
  {
  }

  lemma PairIndexInverse(i: nat, j: nat, n: nat)
    requires j < n
    ensures PairIndex(i, j, n) / n == i && PairIndex(i, j, n) % n == j
  {
    var k := PairIndex(i, j, n);
    var q := k / n;
    assert k == q * n + k % n;
    MulMonotone(q + 1, i, n);
    MulMonotone(i + 1, q, n);
    assert (q + 1) * n == q * n + n && (i + 1) * n == i * n + n;
  }

  lemma PairIndexNext(i: nat, n: nat)
    ensures PairIndex(i, n, n) == PairIndex(i + 1, 0, n)
  {
  }

  lemma PairIndexBound(i: nat, j: nat, m: nat, n: nat)
    requires i < m && j < n
    ensures PairIndex(i, j, n) < m * n
  {
    assert i * n <= (m - 1) * n == m * n - n;
  }

  lemma PairOfIndex(k: nat, m: nat, n: nat)
    requires k < m * n
    ensures n > 0 && k / n < m && k % n < n
  {
    MulMonotone(0, n, m);
    assert n != 0;
    var q := k / n;
    assert k == q * n + k % n;
    MulMonotone(m, q, n);
  }

  /** `data` holds exactly the first `|range|` rows and `range` says where each lies. */
  ghost predicate Holds(data: seq<nat>, range: seq<(nat, nat)>, rows: seq<seq<nat>>) {
    && |range| <= |rows|
    && data == Flatten(rows[..|range|])
    && forall i {:trigger range[i]} :: 0 <= i < |range| ==> range[i] == (Offset(rows, i), Offset(rows, i + 1))
  }

  lemma HoldsStep(data: seq<nat>, range: seq<(nat, nat)>, rows: seq<seq<nat>>)
    requires Holds(data, range, rows) && |range| < |rows|
    ensures var row := rows[|range|];
      Holds(data + row, range + [(|data|, |data| + |row|)], rows)
  {
    var k := |range|;
    assert rows[..k + 1] == rows[..k] + [rows[k]];
    FlattenAppend(rows[..k], rows[k]);
  }

  /** Appends the next row and its offsets; `None` where an offset does not fit `u16`. */
  method AppendRow(data: seq<nat>, range: seq<(nat, nat)>, row: seq<nat>, ghost rows: seq<seq<nat>>)
    returns (r: Option<(seq<nat>, seq<(nat, nat)>)>)
    requires Holds(data, range, rows) && |range| < |rows| && row == rows[|range|]
    ensures r.Some? ==> Holds(r.value.0, r.value.1, rows) && |r.value.1| == |range| + 1
    ensures r.Some? ==> r.value.0 == data + row && |r.value.0| <= U16_MAX
    ensures r.Some? <==> |data| + |row| <= U16_MAX
    ensures r.None? ==> |Flatten(rows)| > U16_MAX
  {
    HoldsStep(data, range, rows);
    SliceIsRow(rows, |range|);
    var start := |data|;
    if start > U16_MAX { return None; }
    var data' := data + row;
    var end := |data'|;
    if end > U16_MAX { return None; }
    r := Some((data', range + [(start, end)]));
  }

  lemma HoldsAll(data: seq<nat>, range: seq<(nat, nat)>, rows: seq<seq<nat>>, i: nat)
    requires Holds(data, range, rows) && |range| == |rows| && i < |rows|
    ensures range[i].0 <= range[i].1 <= |data| && data[range[i].0..range[i].1] == rows[i]
  {
    assert rows[..|rows|] == rows;
    SliceIsRow(rows, i);
  }

  /** As `Holds`, with a split point inside each row. */
  ghost predicate HoldsSplit(data: seq<nat>, range: seq<(nat, nat, nat)>, rows: seq<seq<nat>>, splits: seq<nat>) {
    && |range| <= |rows| == |splits|
    && data == Flatten(rows[..|range|])
    && forall i {:trigger range[i]} :: 0 <= i < |range| ==>
         range[i] == (Offset(rows, i), Offset(rows, i) + splits[i], Offset(rows, i + 1))
  }

  lemma HoldsNothing(rows: seq<seq<nat>>, splits: seq<nat>)
    requires |splits| == |rows|
    ensures HoldsSplit([], [], rows, splits)
  {
  }

  lemma HoldsSplitStep(data: seq<nat>, range: seq<(nat, nat, nat)>, rows: seq<seq<nat>>, splits: seq<nat>)
    requires HoldsSplit(data, range, rows, splits) && |range| < |rows|
    ensures var k := |range|;
      && |data| + |rows[k]| <= |Flatten(rows)|
      && HoldsSplit(data + rows[k], range + [(|data|, |data| + splits[k], |data| + |rows[k]|)], rows, splits)
  {
    hide Flatten;
    var k := |range|;
    assert rows[..k + 1] == rows[..k] + [rows[k]];
    FlattenAppend(rows[..k], rows[k]);
    SliceIsRow(rows, k);
  }

  lemma HoldsSplitAll(data: seq<nat>, range: seq<(nat, nat, nat)>, rows: seq<seq<nat>>, splits: seq<nat>, i: nat)
    requires HoldsSplit(data, range, rows, splits) && |range| == |rows| && i < |rows| && splits[i] <= |rows[i]|
    ensures range[i].0 <= range[i].1 <= range[i].2 <= |data|
    ensures data[range[i].0..range[i].1] == rows[i][..splits[i]]
    ensures data[range[i].1..range[i].2] == rows[i][splits[i]..]
  {
    assert rows[..|rows|] == rows;
    SliceIsRow(rows, i);
    SubSlice(data, range[i].0, range[i].1, range[i].2);
  }

  lemma SubSlice(data: seq<nat>, lo: nat, mid: nat, hi: nat)
    requires lo <= mid <= hi <= |data|
    ensures data[lo..mid] == data[lo..hi][..mid - lo]
    ensures data[mid..hi] == data[lo..hi][mid - lo..]
  {
  }
}
