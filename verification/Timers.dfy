/** The bounded timer table: countdown, cancellation, and deepest-first expiry. */
module Timers {
  import opened Wrappers

  const U64_RANGE: nat := 0x1_0000_0000_0000_0000

  /** `as_nanos() as u64`: the low 64 bits. */
  function AsU64(ns: nat): nat {
    ns % U64_RANGE
  }

  datatype TimerEntry = TimerEntry(state: nat, trigger: nat, remaining: nat)

  predicate IsKey(e: TimerEntry, state: nat, trigger: nat) {
    e.state == state && e.trigger == trigger
  }

  function IndexOf(ts: seq<TimerEntry>, state: nat, trigger: nat): (r: Option<nat>)
    ensures r.Some? ==> r.value < |ts| && IsKey(ts[r.value], state, trigger)
    ensures r.Some? ==> forall i :: 0 <= i < r.value ==> !IsKey(ts[i], state, trigger)
    ensures r.None? ==> forall i :: 0 <= i < |ts| ==> !IsKey(ts[i], state, trigger)
  {
    if ts == [] then None
    else if IsKey(ts[0], state, trigger) then Some(0)
    else
      match IndexOf(ts[1..], state, trigger)
      case Some(i) => Some(i + 1)
      case None => None
  }

  /** The table after arming: an entry with the same key is reset, otherwise one is appended
      unless the table is full. */
  function AfterStart(ts: seq<TimerEntry>, capacity: nat, state: nat, trigger: nat, ns: nat): seq<TimerEntry> {
    match IndexOf(ts, state, trigger)
    case Some(i) => ts[i := ts[i].(remaining := AsU64(ns))]
    case None => if |ts| < capacity then ts + [TimerEntry(state, trigger, AsU64(ns))] else ts
  }

  /** Arming resets the first entry of the key to the low 64 bits of the duration and leaves all
      other entries; a key without an entry gets one at the end, if there is room. */
  lemma StartIsExact(ts: seq<TimerEntry>, capacity: nat, state: nat, trigger: nat, ns: nat)
    ensures var r, started := AfterStart(ts, capacity, state, trigger, ns),
                TimerEntry(state, trigger, ns % 0x1_0000_0000_0000_0000);
      if exists i :: 0 <= i < |ts| && IsKey(ts[i], state, trigger) then
        && |r| == |ts|
        && forall i :: 0 <= i < |r| ==> r[i] == if IsFirst(ts, i, state, trigger) then started else ts[i]
      else r == if |ts| < capacity then ts + [started] else ts
  {
  }

  predicate IsFirst(ts: seq<TimerEntry>, i: nat, state: nat, trigger: nat)
    requires i < |ts|
  {
    IsKey(ts[i], state, trigger) && forall j :: 0 <= j < i ==> !IsKey(ts[j], state, trigger)
  }

  /** The entries of other states, in order. */
  function Cancelled(ts: seq<TimerEntry>, state: nat): seq<TimerEntry> {
    if ts == [] then []
    else
      var last := ts[|ts| - 1];
      Cancelled(ts[..|ts| - 1], state) + if last.state != state then [last] else []
  }

  function CountDown(e: TimerEntry, elapsed: nat): TimerEntry {
    e.(remaining := if e.remaining > AsU64(elapsed) then e.remaining - AsU64(elapsed) else 0)
  }

  function Decremented(ts: seq<TimerEntry>, elapsed: nat): (r: seq<TimerEntry>)
    ensures |r| == |ts| && forall i :: 0 <= i < |ts| ==> r[i] == CountDown(ts[i], elapsed)
  {
    seq(|ts|, i requires 0 <= i < |ts| => CountDown(ts[i], elapsed))
  }

  function DepthOf(depth: seq<nat>, s: nat): nat {
    if s < |depth| then depth[s] else 0
  }

  /** Index of the next timer to fire. */
  function NextExpired(ts: seq<TimerEntry>, depth: seq<nat>): (r: Option<nat>)
    ensures r.Some? ==> r.value < |ts| && ts[r.value].remaining == 0
  {
    if ts == [] then None
    else
      var n := |ts| - 1;
      var best := NextExpired(ts[..n], depth);
      if ts[n].remaining == 0 && (best.None? || DepthOf(depth, ts[n].state) > DepthOf(depth, ts[best.value].state))
      then Some(n) else best
  }

  /** Expired, at least as deep as every expired entry, and the first of that depth. */
  predicate IsNext(ts: seq<TimerEntry>, depth: seq<nat>, i: nat) {
    && i < |ts| && ts[i].remaining == 0
    && (forall j :: 0 <= j < |ts| && ts[j].remaining == 0 ==>
          DepthOf(depth, ts[j].state) <= DepthOf(depth, ts[i].state))
    && (forall j :: 0 <= j < i && ts[j].remaining == 0 ==> DepthOf(depth, ts[j].state) < DepthOf(depth, ts[i].state))
  }

  lemma {:induction false} NextExpiredIsDeepest(ts: seq<TimerEntry>, depth: seq<nat>)
    ensures NextExpired(ts, depth).None? <==> forall i :: 0 <= i < |ts| ==> ts[i].remaining != 0
    ensures forall i: nat :: NextExpired(ts, depth) == Some(i) <==> IsNext(ts, depth, i)
  {
    if ts != [] {
      var n := |ts| - 1;
      NextExpiredIsDeepest(ts[..n], depth);
      var best := NextExpired(ts[..n], depth);
      if best.Some? { assert IsNext(ts[..n], depth, best.value); }
    }
  }

  /** Removes entry `i`; the last entry takes its place. */
  function SwapRemove(ts: seq<TimerEntry>, i: nat): (r: seq<TimerEntry>)
    requires i < |ts|
    ensures |r| == |ts| - 1
    ensures forall j :: 0 <= j < |r| ==> r[j] == if j == i then ts[|ts| - 1] else ts[j]
    ensures multiset(r) + multiset{ts[i]} == multiset(ts)
  {
    var n := |ts| - 1;
    assert ts == ts[..n] + [ts[n]];
    if i == n then ts[..n]
    else
      assert multiset(ts[..n][i := ts[n]]) == multiset(ts[..n]) - multiset{ts[i]} + multiset{ts[n]};
      ts[..n][i := ts[n]]
  }

  /** The shortest time left, `None` for an empty table. */
  function MinRemaining(ts: seq<TimerEntry>): (r: Option<nat>)
    ensures r.None? <==> ts == []
    ensures r.Some? ==> (forall i :: 0 <= i < |ts| ==> r.value <= ts[i].remaining)
    ensures r.Some? ==> exists i :: 0 <= i < |ts| && r.value == ts[i].remaining
  {
    if ts == [] then None
    else
      var n := |ts| - 1;
      match MinRemaining(ts[..n])
      case None => Some(ts[n].remaining)
      case Some(d) => if ts[n].remaining < d then Some(ts[n].remaining) else
        assert exists i :: 0 <= i < n && d == ts[..n][i].remaining; Some(d)
  }

  /** Both the duration and the step length lose all but their low 64 bits: a lone timer fires on
      its first step exactly when the low bits of its duration are at most those of the step. */
  lemma FiresByLowBits(state: nat, trigger: nat, ns: nat, d: nat, depth: seq<nat>)
    ensures FiresAfter(state, trigger, ns, d, depth) <==> AsU64(ns) <= AsU64(d)
  {
    NextExpiredIsDeepest(Decremented([TimerEntry(state, trigger, AsU64(ns))], d), depth);
  }

  /** For steps below 2^64, a timer is on time for every step exactly when its duration is below
      2^64 too; a longer one fires early. */
  lemma OnTimeIffDurationInRange(state: nat, trigger: nat, ns: nat, depth: seq<nat>)
    ensures (forall d: nat :: d < 0x1_0000_0000_0000_0000 ==> IsOnTime(state, trigger, ns, d, depth))
      <==> ns < 0x1_0000_0000_0000_0000
  {
    forall d: nat | d < U64_RANGE ensures IsOnTime(state, trigger, ns, d, depth) <==> (AsU64(ns) <= d <==> ns <= d) {
      FiresByLowBits(state, trigger, ns, d, depth);
    }
    if ns >= U64_RANGE {
      assert AsU64(ns) < U64_RANGE;
      assert !IsOnTime(state, trigger, ns, AsU64(ns), depth);
    }
  }

  /** For durations below 2^64, a step is on time for every timer exactly when it is below 2^64 too,
      or its low bits are all ones; any other longer step leaves some completed timer unfired. */
  lemma OnTimeIffStepInRange(state: nat, trigger: nat, d: nat, depth: seq<nat>)
    ensures (forall ns: nat :: ns < 0x1_0000_0000_0000_0000 ==> IsOnTime(state, trigger, ns, d, depth))
      <==> d < 0x1_0000_0000_0000_0000 || d % 0x1_0000_0000_0000_0000 == 0xFFFF_FFFF_FFFF_FFFF
  {
    forall ns: nat | ns < U64_RANGE ensures IsOnTime(state, trigger, ns, d, depth) <==> (ns <= AsU64(d) <==> ns <= d) {
      FiresByLowBits(state, trigger, ns, d, depth);
    }
    if d >= U64_RANGE && AsU64(d) < U64_RANGE - 1 {
      assert !IsOnTime(state, trigger, AsU64(d) + 1, d, depth);
    }
  }

  /** A timer of one nanosecond survives a step of 2^64 nanoseconds. */
  lemma TruncatedStepFiresLate(state: nat, trigger: nat, depth: seq<nat>)
    ensures !FiresAfter(state, trigger, 1, 0x1_0000_0000_0000_0000, depth)
  {
    FiresByLowBits(state, trigger, 1, U64_RANGE, depth);
  }

  /** Firing on the first step just when that step completes the duration. */
  predicate IsOnTime(state: nat, trigger: nat, ns: nat, d: nat, depth: seq<nat>) {
    FiresAfter(state, trigger, ns, d, depth) == (ns <= d)
  }

  predicate FiresAfter(state: nat, trigger: nat, ns: nat, d: nat, depth: seq<nat>) {
    NextExpired(Decremented(AfterStart([], 1, state, trigger, ns), d), depth).Some?
  }

  class TimerTable {
    var entries: seq<TimerEntry>
    const capacity: nat

    constructor (capacity: nat)
      ensures entries == [] && this.capacity == capacity
    {
      entries := [];
      this.capacity := capacity;
    }

    method Start(state: nat, trigger: nat, ns: nat)
      modifies this
      ensures entries == AfterStart(old(entries), capacity, state, trigger, ns)
    {
      var i := 0;
      while i < |entries|
        invariant i <= |entries| && entries == old(entries)
        invariant forall k :: 0 <= k < i ==> !IsKey(entries[k], state, trigger)
      {
        if entries[i].state == state && entries[i].trigger == trigger {
          entries := entries[i := entries[i].(remaining := AsU64(ns))];
          return;
        }
        i := i + 1;
      }
      if |entries| < capacity {
        entries := entries + [TimerEntry(state, trigger, AsU64(ns))];
      }
    }

    method CancelState(state: nat)
      modifies this
      ensures entries == Cancelled(old(entries), state)
    {
      if entries != [] {
        var kept: seq<TimerEntry> := [];
        var i := 0;
        while i < |entries|
          invariant i <= |entries| && entries == old(entries)
          invariant kept == Cancelled(entries[..i], state)
        {
          assert entries[..i + 1][..i] == entries[..i];
          if entries[i].state != state { kept := kept + [entries[i]]; }
          i := i + 1;
        }
        assert entries[..i] == entries;
        entries := kept;
      }
    }

    method Decrement(elapsed: nat)
      modifies this
      ensures entries == Decremented(old(entries), elapsed)
    {
      if entries == [] { return; }
      var ns := AsU64(elapsed);
      var i := 0;
      while i < |entries|
        invariant i <= |entries| == |old(entries)|
        invariant forall k :: 0 <= k < i ==> entries[k] == CountDown(old(entries)[k], elapsed)
        invariant forall k :: i <= k < |entries| ==> entries[k] == old(entries)[k]
      {
        var left := entries[i].remaining;
        entries := entries[i := entries[i].(remaining := if left > ns then left - ns else 0)];
        i := i + 1;
      }
    }

    method PopExpired(depth: seq<nat>) returns (fired: Option<(nat, nat)>)
      requires forall i :: 0 <= i < |entries| ==> entries[i].state < |depth|
      modifies this
      ensures var at := NextExpired(old(entries), depth);
        if at.Some? then
          && fired == Some((old(entries)[at.value].state, old(entries)[at.value].trigger))
          && entries == SwapRemove(old(entries), at.value)
        else fired == None && entries == old(entries)
    {
      if entries == [] { return None; }
      var best: Option<nat> := None;
      var i := 0;
      while i < |entries|
        invariant i <= |entries| && best == NextExpired(entries[..i], depth)
      {
        assert entries[..i + 1][..i] == entries[..i];
        if entries[i].remaining == 0 {
          match best {
            case None => best := Some(i);
            case Some(b) =>
              if depth[entries[i].state] > depth[entries[b].state] { best := Some(i); }
          }
        }
        i := i + 1;
      }
      assert entries[..i] == entries;
      match best {
        case None => fired := None;
        case Some(b) =>
          fired := Some((entries[b].state, entries[b].trigger));
          entries := SwapRemove(entries, b);
      }
    }

    method Minimum() returns (r: Option<nat>)
      ensures r == MinRemaining(entries)
    {
      if entries == [] { return None; }
      var least := entries[0].remaining;
      var i := 1;
      assert entries[..1][..0] == [];
      while i < |entries|
        invariant 1 <= i <= |entries| && MinRemaining(entries[..i]) == Some(least)
      {
        assert entries[..i + 1][..i] == entries[..i];
        if entries[i].remaining < least { least := entries[i].remaining; }
        i := i + 1;
      }
      assert entries[..i] == entries;
      r := Some(least);
    }
  }
}
