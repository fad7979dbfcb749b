/** Timer tables whose entries belong to active states, each key once. */
module TimerFacts {
  import opened Charts
  import opened Tree
  import opened Timers
  import opened Reference

  /** Entry `i` belongs to an active state that owns its trigger. */
  predicate EntryOwned(c: Chart, ts: seq<TimerEntry>, alive: seq<nat>, i: nat)
    requires i < |ts|
  {
    ts[i].state in alive && ts[i].state < |c.states| && ts[i].trigger in c.states[ts[i].state].ownedTimers
  }

  predicate KeysDiffer(ts: seq<TimerEntry>, i: nat, j: nat)
    requires i < |ts| && j < |ts|
  {
    !IsKey(ts[i], ts[j].state, ts[j].trigger)
  }

  predicate DistinctKeys(ts: seq<TimerEntry>) {
    forall i: nat, j: nat :: i < j < |ts| ==> KeysDiffer(ts, i, j)
  }

  predicate TimersOk(c: Chart, ts: seq<TimerEntry>, alive: seq<nat>) {
    && (forall i: nat :: i < |ts| ==> EntryOwned(c, ts, alive, i))
    && DistinctKeys(ts)
    && |ts| <= TimerCapacity(c)
  }

  predicate HasKey(ts: seq<TimerEntry>, s: nat, t: nat) {
    exists i :: 0 <= i < |ts| && IsKey(ts[i], s, t)
  }

  lemma {:induction false} CancelledMembers(ts: seq<TimerEntry>, s: nat, e: TimerEntry)
    ensures e in Cancelled(ts, s) <==> e in ts && e.state != s
  {
    if ts != [] {
      var n := |ts| - 1;
      CancelledMembers(ts[..n], s, e);
      assert e in ts <==> e in ts[..n] || e == ts[n];
    }
  }

  lemma {:induction false} CancelledDistinct(ts: seq<TimerEntry>, s: nat)
    requires DistinctKeys(ts)
    ensures DistinctKeys(Cancelled(ts, s)) && |Cancelled(ts, s)| <= |ts|
  {
    if ts != [] {
      var n := |ts| - 1;
      var front := ts[..n];
      forall i: nat, j: nat | i < j < n ensures KeysDiffer(front, i, j) { assert KeysDiffer(ts, i, j); }
      CancelledDistinct(front, s);
      var r := Cancelled(ts, s);
      forall i: nat, j: nat | i < j < |r| ensures KeysDiffer(r, i, j) {
        if j < |Cancelled(front, s)| {
          assert KeysDiffer(Cancelled(front, s), i, j);
        } else {
          var e := Cancelled(front, s)[i];
          CancelledMembers(front, s, e);
          var k: nat :| k < n && front[k] == e;
          assert KeysDiffer(ts, k, n);
        }
      }
    }
  }

  /** Leaving the innermost state and dropping its timers keeps the table in order. */
  lemma CancelledOk(c: Chart, ts: seq<TimerEntry>, alive: seq<nat>)
    requires TimersOk(c, ts, alive) && alive != []
    ensures TimersOk(c, Cancelled(ts, Last(alive)), alive[..|alive| - 1])
  {
    var s := Last(alive);
    var r, front := Cancelled(ts, s), alive[..|alive| - 1];
    CancelledDistinct(ts, s);
    forall i: nat | i < |r| ensures EntryOwned(c, r, front, i) {
      CancelledMembers(ts, s, r[i]);
      var k: nat :| k < |ts| && ts[k] == r[i];
      assert EntryOwned(c, ts, alive, k);
    }
  }

  lemma SwapRemoveMembers(ts: seq<TimerEntry>, i: nat, e: TimerEntry)
    requires i < |ts| && DistinctKeys(ts)
    ensures e in SwapRemove(ts, i) <==> e in ts && e != ts[i]
    ensures e in SwapRemove(ts, i) ==> !IsKey(e, ts[i].state, ts[i].trigger)
  {
    var r, n := SwapRemove(ts, i), |ts| - 1;
    if e in r {
      var k: nat :| k < |r| && r[k] == e;
      var k' := if k == i then n else k;
      assert ts[k'] == e;
      if k' < i { assert KeysDiffer(ts, k', i); } else { assert KeysDiffer(ts, i, k'); }
    }
    if e in ts && e != ts[i] {
      var k: nat :| k < |ts| && ts[k] == e;
      assert r[if k == n then i else k] == e;
    }
  }

  lemma SwapRemoveOk(c: Chart, ts: seq<TimerEntry>, alive: seq<nat>, i: nat)
    requires TimersOk(c, ts, alive) && i < |ts|
    ensures TimersOk(c, SwapRemove(ts, i), alive)
    ensures !HasKey(SwapRemove(ts, i), ts[i].state, ts[i].trigger)
  {
    var r, n := SwapRemove(ts, i), |ts| - 1;
    forall k: nat | k < |r| ensures EntryOwned(c, r, alive, k) {
      assert EntryOwned(c, ts, alive, if k == i then n else k);
    }
    forall a: nat, b: nat | a < b < |r| ensures KeysDiffer(r, a, b) {
      var a', b' := if a == i then n else a, if b == i then n else b;
      if a' < b' { assert KeysDiffer(ts, a', b'); } else { assert KeysDiffer(ts, b', a'); }
    }
    forall k | 0 <= k < |r| ensures !IsKey(r[k], ts[i].state, ts[i].trigger) {
      SwapRemoveMembers(ts, i, r[k]);
    }
  }

  lemma DecrementedOk(c: Chart, ts: seq<TimerEntry>, alive: seq<nat>, d: nat)
    requires TimersOk(c, ts, alive)
    ensures TimersOk(c, Decremented(ts, d), alive)
  {
    var r := Decremented(ts, d);
    forall i: nat | i < |r| ensures EntryOwned(c, r, alive, i) { assert EntryOwned(c, ts, alive, i); }
    forall i: nat, j: nat | i < j < |r| ensures KeysDiffer(r, i, j) { assert KeysDiffer(ts, i, j); }
  }

  /** Arming a key that is not in the table appends it if there is room, and changes nothing else. */
  lemma StartFresh(c: Chart, ts: seq<TimerEntry>, alive: seq<nat>, s: nat, t: nat, ns: nat)
    requires TimersOk(c, ts, alive) && !HasKey(ts, s, t)
    requires s in alive && s < |c.states| && t in c.states[s].ownedTimers
    ensures var r := AfterStart(ts, TimerCapacity(c), s, t, ns);
      && r == (if |ts| < TimerCapacity(c) then ts + [TimerEntry(s, t, AsU64(ns))] else ts)
      && TimersOk(c, r, alive)
  {
    assert IndexOf(ts, s, t).None?;
    var r := AfterStart(ts, TimerCapacity(c), s, t, ns);
    forall i: nat | i < |r| ensures EntryOwned(c, r, alive, i) {
      if i < |ts| { assert EntryOwned(c, ts, alive, i); }
    }
    forall i: nat, j: nat | i < j < |r| ensures KeysDiffer(r, i, j) {
      if j < |ts| { assert KeysDiffer(ts, i, j); }
    }
  }

  lemma WidenAlive(c: Chart, ts: seq<TimerEntry>, alive: seq<nat>, s: nat)
    requires TimersOk(c, ts, alive)
    ensures TimersOk(c, ts, alive + [s])
    ensures s !in alive ==> forall t :: !HasKey(ts, s, t)
  {
    forall i: nat | i < |ts| ensures EntryOwned(c, ts, alive + [s], i) { assert EntryOwned(c, ts, alive, i); }
    if s !in alive {
      forall t ensures !HasKey(ts, s, t) {
        forall i: nat | i < |ts| ensures !IsKey(ts[i], s, t) { assert EntryOwned(c, ts, alive, i); }
      }
    }
  }

  // ----- capacity along a chain -----

  function OwnedBy(c: Chart, s: nat): nat {
    if s < |c.states| then |c.states[s].ownedTimers| else 0
  }

  /** How many timers the states of a path own together. */
  function OwnedCount(c: Chart, path: seq<nat>): nat {
    if path == [] then 0 else OwnedCount(c, path[..|path| - 1]) + OwnedBy(c, Last(path))
  }

  predicate FitsAt(c: Chart, s: nat)
    requires IsTree(c) && s < |c.states|
  {
    OwnedCount(c, RootPath(c, s)) <= TimerCapacity(c)
  }

  /** No root-to-state chain owns more timers than the table holds. */
  predicate ChainsFit(c: Chart)
    requires IsTree(c)
  {
    forall s: nat :: s < |c.states| ==> FitsAt(c, s)
  }

  /** The keys the states of a path may arm. */
  ghost function Keys(c: Chart, path: seq<nat>): (r: set<(nat, nat)>)
    ensures |r| <= OwnedCount(c, path)
  {
    if path == [] then {}
    else
      var front := Keys(c, path[..|path| - 1]);
      var s := Last(path);
      if s < |c.states| then
        OwnKeysCount(s, c.states[s].ownedTimers);
        UnionCount(front, OwnKeys(s, c.states[s].ownedTimers));
        front + OwnKeys(s, c.states[s].ownedTimers)
      else front
  }

  ghost function OwnKeys(s: nat, ts: seq<nat>): set<(nat, nat)> {
    set t | t in ts :: (s, t)
  }

  lemma UnionCount<T>(a: set<T>, b: set<T>)
    ensures |a + b| <= |a| + |b|
  {
    assert |a + b| == |a| + |b| - |a * b|;
  }

  lemma {:induction false} OwnKeysCount(s: nat, ts: seq<nat>)
    ensures |OwnKeys(s, ts)| <= |ts|
  {
    if ts != [] {
      var n := |ts| - 1;
      OwnKeysCount(s, ts[..n]);
      assert OwnKeys(s, ts) == OwnKeys(s, ts[..n]) + {(s, ts[n])};
      UnionCount(OwnKeys(s, ts[..n]), {(s, ts[n])});
    }
  }

  lemma {:induction false} KeyOfOwner(c: Chart, path: seq<nat>, s: nat, t: nat)
    requires s in path && s < |c.states| && t in c.states[s].ownedTimers
    ensures (s, t) in Keys(c, path)
  {
    if Last(path) == s {
      assert (s, t) in OwnKeys(s, c.states[s].ownedTimers);
    } else {
      KeyOfOwner(c, path[..|path| - 1], s, t);
    }
  }

  ghost function TableKeys(ts: seq<TimerEntry>): set<(nat, nat)> {
    set i | 0 <= i < |ts| :: (ts[i].state, ts[i].trigger)
  }

  lemma {:induction false} TableKeysCount(ts: seq<TimerEntry>)
    requires DistinctKeys(ts)
    ensures |TableKeys(ts)| == |ts|
  {
    if ts != [] {
      var n := |ts| - 1;
      var front := ts[..n];
      forall i: nat, j: nat | i < j < n ensures KeysDiffer(front, i, j) { assert KeysDiffer(ts, i, j); }
      TableKeysCount(front);
      var k := (ts[n].state, ts[n].trigger);
      assert TableKeys(ts) == TableKeys(front) + {k} by {
        forall x ensures x in TableKeys(ts) <==> x in TableKeys(front) + {k} {
          if x in TableKeys(front) {
            var i :| 0 <= i < |front| && x == (front[i].state, front[i].trigger);
            assert x == (ts[i].state, ts[i].trigger);
          }
        }
      }
      forall i: nat | i < n ensures (front[i].state, front[i].trigger) != k { assert KeysDiffer(ts, i, n); }
    }
  }

  /** While a key of an active state is missing, the states own more timers than the table holds. */
  lemma RoomForMissing(c: Chart, ts: seq<TimerEntry>, alive: seq<nat>, s: nat, t: nat)
    requires TimersOk(c, ts, alive) && !HasKey(ts, s, t)
    requires s in alive && s < |c.states| && t in c.states[s].ownedTimers
    ensures |ts| + 1 <= OwnedCount(c, alive)
  {
    TableKeysCount(ts);
    TableKeysOwned(c, ts, alive);
    KeyOfOwner(c, alive, s, t);
    assert (s, t) !in TableKeys(ts);
    SubsetCount(TableKeys(ts) + {(s, t)}, Keys(c, alive));
  }

  lemma TableKeysOwned(c: Chart, ts: seq<TimerEntry>, alive: seq<nat>)
    requires TimersOk(c, ts, alive)
    ensures TableKeys(ts) <= Keys(c, alive)
  {
    forall i: nat | i < |ts| ensures (ts[i].state, ts[i].trigger) in Keys(c, alive) {
      assert EntryOwned(c, ts, alive, i);
      KeyOfOwner(c, alive, ts[i].state, ts[i].trigger);
    }
  }

  lemma {:induction false} SubsetCount<T>(a: set<T>, b: set<T>)
    requires a <= b
    ensures |a| <= |b|
    decreases a
  {
    if x :| x in a {
      SubsetCount(a - {x}, b - {x});
    }
  }
}
