/** The bounds predicates every generated table has to satisfy before the machine may index it unchecked. */
module TableCheck {
  import opened Wrappers
  import opened Charts
  import opened Tree
  import opened Flat
  import opened Tables

  method CheckPathRange(range: seq<(nat, nat, nat)>, dataLen: nat) returns (ok: bool)
    ensures ok <==> forall i :: 0 <= i < |range| ==> range[i].0 <= range[i].1 <= range[i].2 <= dataLen
  {
    var i := 0;
    while i < |range|
      invariant i <= |range|
      invariant forall k :: 0 <= k < i ==> range[k].0 <= range[k].1 <= range[k].2 <= dataLen
    {
      var (s, m, e) := range[i];
      if !(s <= m && m <= e && e <= dataLen) { return false; }
      i := i + 1;
    }
    ok := true;
  }

  method CheckTerminateRange(range: seq<(nat, nat)>, dataLen: nat) returns (ok: bool)
    ensures ok <==> forall i :: 0 <= i < |range| ==> range[i].0 <= range[i].1 <= dataLen
  {
    var i := 0;
    while i < |range|
      invariant i <= |range|
      invariant forall k :: 0 <= k < i ==> range[k].0 <= range[k].1 <= dataLen
    {
      var (s, e) := range[i];
      if !(s <= e && e <= dataLen) { return false; }
      i := i + 1;
    }
    ok := true;
  }

  method CheckStateIds(data: seq<nat>, nStates: nat) returns (ok: bool)
    ensures ok <==> IdsBelow(data, nStates)
  {
    var i := 0;
    while i < |data|
      invariant i <= |data|
      invariant forall k :: 0 <= k < i ==> data[k] < nStates
    {
      if data[i] >= nStates { return false; }
      i := i + 1;
    }
    ok := true;
  }

  method CheckDefaults(defaults: seq<Option<nat>>, nStates: nat) returns (ok: bool)
    ensures ok <==> forall i :: 0 <= i < |defaults| && defaults[i].Some? ==> defaults[i].value < nStates
  {
    var i := 0;
    while i < |defaults|
      invariant i <= |defaults|
      invariant forall k :: 0 <= k < i && defaults[k].Some? ==> defaults[k].value < nStates
    {
      if defaults[i].Some? {
        if defaults[i].value >= nStates { return false; }
      }
      i := i + 1;
    }
    ok := true;
  }

  /** All five bounds at once. */
  predicate Sound(t: PathTables, nStates: nat) {
    && (forall i :: 0 <= i < |t.pathRange| ==>
          t.pathRange[i].0 <= t.pathRange[i].1 <= t.pathRange[i].2 <= |t.pathData|)
    && (forall i :: 0 <= i < |t.terminateRange| ==>
          t.terminateRange[i].0 <= t.terminateRange[i].1 <= |t.terminateData|)
    && IdsBelow(t.pathData, nStates)
    && IdsBelow(t.terminateData, nStates)
    && (forall i :: 0 <= i < |t.defaultTarget| && t.defaultTarget[i].Some? ==> t.defaultTarget[i].value < nStates)
  }

  /** Sound means: no range reaches outside its data, and nothing stored names a state that is not. */
  lemma SoundExactly(t: PathTables, nStates: nat)
    ensures Sound(t, nStates) <==> (
      && (forall r :: r in t.pathRange ==> r.0 <= r.1 <= r.2 <= |t.pathData|)
      && (forall r :: r in t.terminateRange ==> r.0 <= r.1 <= |t.terminateData|)
      && (forall id :: id in t.pathData || id in t.terminateData ==> id < nStates)
      && (forall target :: target in t.defaultTarget && target.Some? ==> target.value < nStates))
  {
    if Sound(t, nStates) {
      forall r | r in t.pathRange ensures r.0 <= r.1 <= r.2 <= |t.pathData| {
        var i :| 0 <= i < |t.pathRange| && t.pathRange[i] == r;
      }
      forall r | r in t.terminateRange ensures r.0 <= r.1 <= |t.terminateData| {
        var i :| 0 <= i < |t.terminateRange| && t.terminateRange[i] == r;
      }
    }
    if IsSoundByMembers(t, nStates) {
      forall i | 0 <= i < |t.pathRange|
        ensures t.pathRange[i].0 <= t.pathRange[i].1 <= t.pathRange[i].2 <= |t.pathData|
      {
        assert t.pathRange[i] in t.pathRange;
      }
      forall i | 0 <= i < |t.terminateRange|
        ensures t.terminateRange[i].0 <= t.terminateRange[i].1 <= |t.terminateData|
      {
        assert t.terminateRange[i] in t.terminateRange;
      }
      forall i | 0 <= i < |t.pathData| ensures t.pathData[i] < nStates { assert t.pathData[i] in t.pathData; }
      forall i | 0 <= i < |t.terminateData| ensures t.terminateData[i] < nStates {
        assert t.terminateData[i] in t.terminateData;
      }
      forall i | 0 <= i < |t.defaultTarget| && t.defaultTarget[i].Some? ensures t.defaultTarget[i].value < nStates {
        assert t.defaultTarget[i] in t.defaultTarget;
      }
    }
  }

  ghost predicate IsSoundByMembers(t: PathTables, nStates: nat) {
    && (forall r :: r in t.pathRange ==> r.0 <= r.1 <= r.2 <= |t.pathData|)
    && (forall r :: r in t.terminateRange ==> r.0 <= r.1 <= |t.terminateData|)
    && (forall id :: id in t.pathData || id in t.terminateData ==> id < nStates)
    && (forall target :: target in t.defaultTarget && target.Some? ==> target.value < nStates)
  }

  method CheckTables(t: PathTables, nStates: nat) returns (ok: bool)
    ensures ok <==> Sound(t, nStates)
  {
    ok := CheckPathRange(t.pathRange, |t.pathData|);
    if ok { ok := CheckTerminateRange(t.terminateRange, |t.terminateData|); }
    if ok { ok := CheckStateIds(t.pathData, nStates); }
    if ok { ok := CheckStateIds(t.terminateData, nStates); }
    if ok { ok := CheckDefaults(t.defaultTarget, nStates); }
  }

  /** Every table the path precomputation builds passes the check. */
  lemma BuiltTablesAreSound(c: Chart, t: PathTables)
    requires WellFormed(c) && PathTablesOk(c, t) && PathTablesExact(c, t)
    ensures Sound(t, |c.states|)
  {
    hide RootPath, Flatten, Reverse, ExitRoute, EnterRoute;
    PathRangesInBounds(c, t);
    TerminateRangesInBounds(c, t);
    PathIdsBelow(c);
    FlattenElements(TerminateRows(c), |c.states|);
    DefaultsInBounds(c, t);
  }

  lemma TerminateRangesInBounds(c: Chart, t: PathTables)
    requires IsTree(c) && PathTablesOk(c, t) && |t.terminateRange| == |c.states|
    ensures forall i :: 0 <= i < |t.terminateRange| ==>
      t.terminateRange[i].0 <= t.terminateRange[i].1 <= |t.terminateData|
  {
    forall i | 0 <= i < |t.terminateRange|
      ensures t.terminateRange[i].0 <= t.terminateRange[i].1 <= |t.terminateData|
    {
      assert TerminateEntryOk(c, t, i);
    }
  }

  lemma DefaultsInBounds(c: Chart, t: PathTables)
    requires WellFormed(c) && PathTablesOk(c, t) && |t.defaultTarget| == |c.states|
    ensures forall i :: 0 <= i < |t.defaultTarget| && t.defaultTarget[i].Some? ==> t.defaultTarget[i].value < |c.states|
  {
    forall i | 0 <= i < |t.defaultTarget| && t.defaultTarget[i].Some?
      ensures t.defaultTarget[i].value < |c.states|
    {
      assert DefaultAt(c, t, i) && StateOk(c, i);
    }
  }

  lemma PathRangesInBounds(c: Chart, t: PathTables)
    requires IsTree(c) && |t.pathRange| == |PathRows(c)|
    requires forall f: nat, to: nat :: f < |c.states| && to < |c.states| ==> PathEntryOk(c, t, f, to)
    ensures forall i :: 0 <= i < |t.pathRange| ==>
      t.pathRange[i].0 <= t.pathRange[i].1 <= t.pathRange[i].2 <= |t.pathData|
  {
    var n2 := |c.states| * |c.states|;
    assert |t.pathRange| == n2;
    forall i | 0 <= i < n2
      ensures t.pathRange[i].0 <= t.pathRange[i].1 <= t.pathRange[i].2 <= |t.pathData|
    {
      PathEntryInBounds(c, t, i);
    }
  }

  lemma PathEntryInBounds(c: Chart, t: PathTables, i: nat)
    requires IsTree(c) && i < |c.states| * |c.states|
    requires forall f: nat, to: nat :: f < |c.states| && to < |c.states| ==> PathEntryOk(c, t, f, to)
    ensures i < |t.pathRange|
    ensures t.pathRange[i].0 <= t.pathRange[i].1 <= t.pathRange[i].2 <= |t.pathData|
  {
    var f, to := PairOf(i, |c.states|);
    assert PathEntryOk(c, t, f, to);
  }

  lemma PathIdsBelow(c: Chart)
    requires IsTree(c)
    ensures IdsBelow(Flatten(PathRows(c)), |c.states|)
  {
    var rows := PathRows(c);
    forall k | 0 <= k < |rows| ensures IdsBelow(rows[k], |c.states|) {
      PathRowSize(c, k);
    }
    FlattenElements(rows, |c.states|);
  }

  /** Every row number below `n * n` is some pair's. */
  lemma PairOf(k: nat, n: nat) returns (i: nat, j: nat)
    requires k < n * n
    ensures i < n && j < n && PairIndex(i, j, n) == k
  {
    PairOfIndex(k, n, n);
    i, j := k / n, k % n;
  }
}
