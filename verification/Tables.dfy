/** The flat path tables: built from all-pairs routes, checked for bounds, and sliced by the machine. */
module Tables {
  import opened Wrappers
  import opened Charts
  import opened Tree
  import opened Flat
  import Paths

  function ExitRow(c: Chart, k: nat): seq<nat>
    requires IsTree(c) && k < |c.states| * |c.states|
  {
    PairOfIndex(k, |c.states|, |c.states|);
    ExitRoute(c, k / |c.states|, k % |c.states|)
  }

  function EnterRow(c: Chart, k: nat): seq<nat>
    requires IsTree(c) && k < |c.states| * |c.states|
  {
    PairOfIndex(k, |c.states|, |c.states|);
    EnterRoute(c, k / |c.states|, k % |c.states|)
  }

  function ExitRows(c: Chart): seq<seq<nat>>
    requires IsTree(c)
  {
    seq(|c.states| * |c.states|, k requires 0 <= k < |c.states| * |c.states| => ExitRow(c, k))
  }

  function EnterRows(c: Chart): seq<seq<nat>>
    requires IsTree(c)
  {
    seq(|c.states| * |c.states|, k requires 0 <= k < |c.states| * |c.states| => EnterRow(c, k))
  }

  /** One row per (from, to) pair: what is exited, then what is entered. */
  function PathRows(c: Chart): seq<seq<nat>>
    requires IsTree(c)
  {
    seq(|c.states| * |c.states|, k requires 0 <= k < |c.states| * |c.states| => ExitRow(c, k) + EnterRow(c, k))
  }

  /** The whole active path from each state, innermost first. */
  function TerminateRows(c: Chart): seq<seq<nat>>
    requires IsTree(c)
  {
    seq(|c.states|, s requires 0 <= s < |c.states| => Reverse(RootPath(c, s)))
  }

  /** The number of state ids `__PATH_DATA` has to hold. */
  function PathSize(c: Chart): nat
    requires IsTree(c)
  {
    |Flatten(PathRows(c))|
  }

  datatype PairTables = PairTables(
    exitData: seq<nat>, enterData: seq<nat>, exitRange: seq<(nat, nat)>, enterRange: seq<(nat, nat)>)

  datatype PathTables = PathTables(
    pathRange: seq<(nat, nat, nat)>, pathData: seq<nat>,
    terminateRange: seq<(nat, nat)>, terminateData: seq<nat>,
    defaultTarget: seq<Option<nat>>)

  /** The tables hold the first `k` pairs' rows. */
  ghost predicate HoldsPairs(t: PairTables, k: nat, exits: seq<seq<nat>>, enters: seq<seq<nat>>) {
    && |t.exitRange| == |t.enterRange| == k
    && Holds(t.exitData, t.exitRange, exits) && Holds(t.enterData, t.enterRange, enters)
    && |t.exitData| <= U16_MAX && |t.enterData| <= U16_MAX
  }

  method AppendPair(c: Chart, from: nat, to: nat, t: PairTables, ghost exits: seq<seq<nat>>,
      ghost enters: seq<seq<nat>>)
    returns (r: Option<PairTables>)
    requires IsTree(c) && from < |c.states| && to < |c.states|
    requires HoldsPairs(t, PairIndex(from, to, |c.states|), exits, enters)
    requires |t.exitRange| < |exits| == |enters|
    requires exits[|t.exitRange|] == ExitRoute(c, from, to) && enters[|t.exitRange|] == EnterRoute(c, from, to)
    ensures r.Some? <==>
      |t.exitData + ExitRoute(c, from, to)| <= U16_MAX && |t.enterData + EnterRoute(c, from, to)| <= U16_MAX
    ensures r.None? ==> |Flatten(exits)| > U16_MAX || |Flatten(enters)| > U16_MAX
    ensures r.Some? ==> HoldsPairs(r.value, PairIndex(from, to + 1, |c.states|), exits, enters)
  {
    var ep, np := Paths.ComputeOne(c, from, to);
    var e := AppendRow(t.exitData, t.exitRange, ep, exits);
    if e.None? { return None; }
    var n := AppendRow(t.enterData, t.enterRange, np, enters);
    if n.None? { return None; }
    r := Some(PairTables(e.value.0, n.value.0, e.value.1, n.value.1));
  }

  /** The pair's rows are where row-major numbering puts them. */
  ghost predicate RowsAt(c: Chart, from: nat, to: nat, exits: seq<seq<nat>>, enters: seq<seq<nat>>)
    requires IsTree(c) && from < |c.states| && to < |c.states|
  {
    var k := PairIndex(from, to, |c.states|);
    k < |exits| && k < |enters| && exits[k] == ExitRoute(c, from, to) && enters[k] == EnterRoute(c, from, to)
  }

  /** All-pairs exit and enter paths; `None` where an offset would not fit `u16`. */
  method ComputeTransitionPaths(c: Chart, ghost exits: seq<seq<nat>>, ghost enters: seq<seq<nat>>)
    returns (r: Option<PairTables>)
    requires IsTree(c)
    requires |exits| == |enters| == PairIndex(|c.states|, 0, |c.states|)
    requires forall f: nat, t: nat :: f < |c.states| && t < |c.states| ==> RowsAt(c, f, t, exits, enters)
    ensures r.Some? <==> |Flatten(exits)| <= U16_MAX && |Flatten(enters)| <= U16_MAX
    ensures r.Some? ==> HoldsPairs(r.value, |exits|, exits, enters)
  {
    var n := |c.states|;
    var t := PairTables([], [], [], []);
    var from := 0;
    while from < n
      invariant from <= n
      invariant HoldsPairs(t, PairIndex(from, 0, n), exits, enters)
    {
      var to := 0;
      while to < n
        invariant to <= n
        invariant HoldsPairs(t, PairIndex(from, to, n), exits, enters)
      {
        assert RowsAt(c, from, to, exits, enters);
        var e := AppendPair(c, from, to, t, exits, enters);
        if e.None? { return None; }
        t := e.value;
        to := to + 1;
      }
      PairIndexNext(from, n);
      from := from + 1;
    }
    assert exits[..|exits|] == exits && enters[..|enters|] == enters;
    r := Some(t);
  }

  /** Folds the two blobs into one: `(start, mid, end)` per pair. */
  method FoldPathTables(t: PairTables, ghost exits: seq<seq<nat>>, ghost enters: seq<seq<nat>>,
      ghost rows: seq<seq<nat>>, ghost splits: seq<nat>)
    returns (r: Option<(seq<(nat, nat, nat)>, seq<nat>)>)
    requires |t.exitRange| == |t.enterRange| == |exits| == |enters| == |rows| == |splits|
    requires Holds(t.exitData, t.exitRange, exits) && Holds(t.enterData, t.enterRange, enters)
    requires forall i :: 0 <= i < |rows| ==> rows[i] == exits[i] + enters[i] && splits[i] == |exits[i]|
    ensures r.Some? <==> |Flatten(rows)| <= U16_MAX
    ensures r.Some? ==> |r.value.0| == |rows| && HoldsSplit(r.value.1, r.value.0, rows, splits)
  {
    hide Flatten, Offset;
    var data: seq<nat> := [];
    var range: seq<(nat, nat, nat)> := [];
    HoldsNothing(rows, splits);
    var i := 0;
    while i < |t.exitRange|
      invariant i == |range| <= |t.exitRange|
      invariant HoldsSplit(data, range, rows, splits)
      invariant |data| <= U16_MAX
    {
      HoldsAll(t.exitData, t.exitRange, exits, i);
      HoldsAll(t.enterData, t.enterRange, enters, i);
      HoldsSplitStep(data, range, rows, splits);
      var (es, ee) := t.exitRange[i];
      var (ns, ne) := t.enterRange[i];
      var start := |data|;
      if start > U16_MAX { return None; }
      ghost var before := data;
      data := data + t.exitData[es..ee];
      var mid := |data|;
      if mid > U16_MAX { return None; }
      data := data + t.enterData[ns..ne];
      assert data == before + rows[i];
      var end := |data|;
      if end > U16_MAX { return None; }
      range := range + [(start, mid, end)];
      i := i + 1;
    }
    assert rows[..|range|] == rows;
    r := Some((range, data));
  }

  /** The states from `from` to the root, both included. */
  method WalkToRoot(c: Chart, from: nat) returns (path: seq<nat>)
    requires IsTree(c) && from < |c.states|
    ensures path == Reverse(RootPath(c, from))
  {
    ghost var p := RootPath(c, from);
    path := [];
    var cur := Some(from);
    while cur.Some?
      invariant |path| <= |p|
      invariant cur == if |path| == |p| then None else Some(p[|p| - 1 - |path|])
      invariant forall i :: 0 <= i < |path| ==> path[i] == p[|p| - 1 - i]
      decreases |p| - |path|
    {
      StepUp(c, from, |p| - 1 - |path|);
      path := path + [cur.value];
      cur := c.states[cur.value].parent;
    }
  }

  method ComputeTerminatePaths(c: Chart, ghost rows: seq<seq<nat>>) returns (r: Option<(seq<nat>, seq<(nat, nat)>)>)
    requires IsTree(c)
    requires |rows| == |c.states| && forall s :: 0 <= s < |rows| ==> rows[s] == Reverse(RootPath(c, s))
    ensures r.Some? <==> |Flatten(rows)| <= U16_MAX
    ensures r.Some? ==> |r.value.1| == |rows| && Holds(r.value.0, r.value.1, rows)
  {
    var data: seq<nat> := [];
    var range: seq<(nat, nat)> := [];
    var from := 0;
    while from < |c.states|
      invariant from == |range| <= |c.states|
      invariant Holds(data, range, rows)
      invariant |data| <= U16_MAX
    {
      var path := WalkToRoot(c, from);
      var e := AppendRow(data, range, path, rows);
      if e.None? { return None; }
      data, range := e.value.0, e.value.1;
      from := from + 1;
    }
    assert rows[..|rows|] == rows;
    r := Some((data, range));
  }

  /** The entry for a pair slices out exactly that pair's exit and enter routes. */
  predicate PathEntryOk(c: Chart, t: PathTables, from: nat, to: nat)
    requires IsTree(c) && from < |c.states| && to < |c.states|
  {
    var k := PairIndex(from, to, |c.states|);
    && k < |t.pathRange|
    && t.pathRange[k].0 <= t.pathRange[k].1 <= t.pathRange[k].2 <= |t.pathData|
    && t.pathData[t.pathRange[k].0..t.pathRange[k].1] == ExitRoute(c, from, to)
    && t.pathData[t.pathRange[k].1..t.pathRange[k].2] == EnterRoute(c, from, to)
  }

  predicate TerminateEntryOk(c: Chart, t: PathTables, s: nat)
    requires IsTree(c) && s < |c.states|
  {
    && s < |t.terminateRange|
    && t.terminateRange[s].0 <= t.terminateRange[s].1 <= |t.terminateData|
    && t.terminateData[t.terminateRange[s].0..t.terminateRange[s].1] == Reverse(RootPath(c, s))
  }

  predicate DefaultAt(c: Chart, t: PathTables, s: nat)
    requires s < |c.states|
  {
    s < |t.defaultTarget| && t.defaultTarget[s] == c.states[s].defaultTarget
  }

  /** Every table lookup the machine makes gives the walk it stands for. */
  predicate PathTablesOk(c: Chart, t: PathTables)
    requires IsTree(c)
  {
    && (forall from: nat, to: nat :: from < |c.states| && to < |c.states| ==> PathEntryOk(c, t, from, to))
    && (forall s: nat :: s < |c.states| ==> TerminateEntryOk(c, t, s))
    && (forall s: nat :: s < |c.states| ==> DefaultAt(c, t, s))
  }

  /** The tables hold the chart's rows and nothing else. */
  predicate PathTablesExact(c: Chart, t: PathTables)
    requires IsTree(c)
  {
    && |t.pathRange| == |PathRows(c)| && t.pathData == Flatten(PathRows(c))
    && |t.terminateRange| == |c.states| && t.terminateData == Flatten(TerminateRows(c))
    && |t.defaultTarget| == |c.states|
  }

  /** Every id in `ids` names one of the first `n` states. */
  predicate IdsBelow(ids: seq<nat>, n: nat) {
    forall i :: 0 <= i < |ids| ==> ids[i] < n
  }

  lemma RouteSizes(c: Chart, from: nat, to: nat)
    requires IsTree(c) && from < |c.states| && to < |c.states|
    ensures 1 <= |ExitRoute(c, from, to)| + |EnterRoute(c, from, to)|
    ensures from == to ==> |ExitRoute(c, from, to)| + |EnterRoute(c, from, to)| == 2
    ensures IdsBelow(ExitRoute(c, from, to), |c.states|) && IdsBelow(EnterRoute(c, from, to), |c.states|)
  {
    hide RootPath, CommonLen;
    var p, q, k := RootPath(c, from), RootPath(c, to), Kept(c, RootPath(c, from), to);
    if from == to {
      Paths.SelfRoute(c, to);
    } else {
      assert p[|p| - 1] == from && q[|q| - 1] == to;
      assert k < |p| || k < |q|;
    }
    IdsOnPath(p[k..], from, |c.states|);
    IdsOnPath(q[k..], to, |c.states|);
  }

  /** States of a path to `s` are numbered up to `s`; reversed or not, they are below `n`. */
  lemma IdsOnPath(p: seq<nat>, s: nat, n: nat)
    requires s < n && forall i :: 0 <= i < |p| ==> p[i] <= s
    ensures IdsBelow(p, n) && IdsBelow(Reverse(p), n)
  {
  }

  lemma PathRowSize(c: Chart, k: nat)
    requires IsTree(c) && k < |c.states| * |c.states|
    ensures 1 <= |PathRows(c)[k]|
    ensures IdsBelow(PathRows(c)[k], |c.states|)
  {
    PairOfIndex(k, |c.states|, |c.states|);
    RouteSizes(c, k / |c.states|, k % |c.states|);
    var e, n := ExitRow(c, k), EnterRow(c, k);
    assert 1 <= |e| + |n| && IdsBelow(e, |c.states|) && IdsBelow(n, |c.states|);
    assert IdsBelow(e + n, |c.states|);
    assert PathRows(c)[k] == e + n;
  }

  /** A chart whose paths fit 16-bit offsets has at most 255 states, so every id and depth fits too. */
  lemma FewStates(c: Chart)
    requires IsTree(c) && PathSize(c) <= U16_MAX
    ensures |c.states| <= 255
    ensures forall s :: 0 <= s < |c.states| ==> c.states[s].depth < 255
  {
    var rows, n := PathRows(c), |c.states|;
    forall k | 0 <= k < |rows| ensures 1 <= |rows[k]| { PathRowSize(c, k); }
    FlattenAtLeast(rows, 1);
    MulMonotone(256, n, n);
    MulMonotone(256, n, 256);
    forall s | 0 <= s < n ensures c.states[s].depth <= s { DepthBelowId(c, s); }
  }

  lemma {:induction false} DepthBelowId(c: Chart, s: nat)
    requires IsTree(c) && s < |c.states|
    ensures c.states[s].depth <= s
  {
    if s > 0 {
      assert IsChild(c, s);
      DepthBelowId(c, c.states[s].parent.value);
    }
  }

  /** Where the path table fits, the terminate table does too. */
  lemma TerminateFits(c: Chart)
    requires IsTree(c) && PathSize(c) <= U16_MAX
    ensures |Flatten(TerminateRows(c))| <= U16_MAX
  {
    FewStates(c);
    var rows := TerminateRows(c);
    forall s | 0 <= s < |rows| ensures |rows[s]| <= 255 {}
    FlattenAtMost(rows, 255);
  }

  lemma RowsByPair(c: Chart, f: nat, t: nat)
    requires IsTree(c) && f < |c.states| && t < |c.states|
    ensures RowsAt(c, f, t, ExitRows(c), EnterRows(c))
  {
    PairIndexBound(f, t, |c.states|, |c.states|);
    PairIndexInverse(f, t, |c.states|);
  }

  lemma AllRows(c: Chart, exits: seq<seq<nat>>, enters: seq<seq<nat>>, rows: seq<seq<nat>>, splits: seq<nat>)
    requires IsTree(c)
    requires exits == ExitRows(c) && enters == EnterRows(c) && rows == PathRows(c) && splits == Splits(c)
    ensures |exits| == |enters| == |rows| == |splits| == PairIndex(|c.states|, 0, |c.states|)
    ensures forall f: nat, t: nat :: f < |c.states| && t < |c.states| ==> RowsAt(c, f, t, exits, enters)
    ensures forall i :: 0 <= i < |rows| ==> rows[i] == exits[i] + enters[i] && splits[i] == |exits[i]|
  {
    forall f: nat, t: nat | f < |c.states| && t < |c.states| ensures RowsAt(c, f, t, exits, enters) {
      RowsByPair(c, f, t);
    }
  }

  ghost function Splits(c: Chart): seq<nat>
    requires IsTree(c)
  {
    seq(|c.states| * |c.states|, k requires 0 <= k < |c.states| * |c.states| => |ExitRow(c, k)|)
  }

  lemma EntryFromRow(c: Chart, t: PathTables, f: nat, to: nat)
    requires IsTree(c) && f < |c.states| && to < |c.states|
    requires HoldsSplit(t.pathData, t.pathRange, PathRows(c), Splits(c)) && |t.pathRange| == |PathRows(c)|
    ensures PathEntryOk(c, t, f, to)
  {
    var k := PairIndex(f, to, |c.states|);
    PairIndexBound(f, to, |c.states|, |c.states|);
    PairIndexInverse(f, to, |c.states|);
    HoldsSplitAll(t.pathData, t.pathRange, PathRows(c), Splits(c), k);
  }

  lemma AssembledOk(c: Chart, t: PathTables)
    requires IsTree(c)
    requires HoldsSplit(t.pathData, t.pathRange, PathRows(c), Splits(c)) && |t.pathRange| == |PathRows(c)|
    requires Holds(t.terminateData, t.terminateRange, TerminateRows(c)) && |t.terminateRange| == |c.states|
    requires |t.defaultTarget| == |c.states|
    requires forall s :: 0 <= s < |c.states| ==> t.defaultTarget[s] == c.states[s].defaultTarget
    ensures PathTablesOk(c, t) && PathTablesExact(c, t)
  {
    forall f: nat, to: nat | f < |c.states| && to < |c.states| ensures PathEntryOk(c, t, f, to) {
      EntryFromRow(c, t, f, to);
    }
    forall s: nat | s < |c.states| ensures TerminateEntryOk(c, t, s) {
      HoldsAll(t.terminateData, t.terminateRange, TerminateRows(c), s);
    }
    assert TerminateRows(c)[..|c.states|] == TerminateRows(c);
    assert PathRows(c)[..|PathRows(c)|] == PathRows(c);
  }

  method BuildPairTables(c: Chart, ghost exits: seq<seq<nat>>, ghost enters: seq<seq<nat>>,
      ghost rows: seq<seq<nat>>, ghost splits: seq<nat>)
    returns (r: Option<(seq<(nat, nat, nat)>, seq<nat>)>)
    requires IsTree(c)
    requires |exits| == |enters| == |rows| == |splits| == PairIndex(|c.states|, 0, |c.states|)
    requires forall f: nat, t: nat :: f < |c.states| && t < |c.states| ==> RowsAt(c, f, t, exits, enters)
    requires forall i :: 0 <= i < |rows| ==> rows[i] == exits[i] + enters[i] && splits[i] == |exits[i]|
    ensures r.Some? <==> |Flatten(rows)| <= U16_MAX
    ensures r.Some? ==> |r.value.0| == |rows| && HoldsSplit(r.value.1, r.value.0, rows, splits)
  {
    FlattenMonotone(exits, rows);
    FlattenMonotone(enters, rows);
    var pairs := ComputeTransitionPaths(c, exits, enters);
    if pairs.None? { return None; }
    r := FoldPathTables(pairs.value, exits, enters, rows, splits);
  }

  method DefaultTable(c: Chart) returns (t: seq<Option<nat>>)
    ensures |t| == |c.states| && forall s :: 0 <= s < |t| ==> t[s] == c.states[s].defaultTarget
  {
    t := seq(|c.states|, s requires 0 <= s < |c.states| => c.states[s].defaultTarget);
  }

  /** Builds every path table; it fails exactly when the paths do not fit 16-bit offsets. */
  method BuildPathTables(c: Chart) returns (r: Option<PathTables>)
    requires IsTree(c)
    ensures r.Some? <==> PathSize(c) <= U16_MAX
    ensures r.Some? ==> PathTablesOk(c, r.value) && PathTablesExact(c, r.value)
  {
    AllRows(c, ExitRows(c), EnterRows(c), PathRows(c), Splits(c));
    var folded := BuildPairTables(c, ExitRows(c), EnterRows(c), PathRows(c), Splits(c));
    if folded.None? { return None; }
    TerminateFits(c);
    var term := ComputeTerminatePaths(c, TerminateRows(c));
    if term.None? { return None; }
    var defaults := DefaultTable(c);
    r := Some(PathTables(folded.value.0, folded.value.1, term.value.1, term.value.0, defaults));
    AssembledOk(c, r.value);
  }
}
