/** When the timer table is too small: exactly which timers get armed. */
module Capacity {
  import opened Wrappers
  import opened Charts
  import opened Tree
  import opened Timers
  import opened Trace
  import opened Reference
  import opened TimerFacts
  import opened Keeps
  import opened Runs
  import opened Theorems

  /** Every timer owned by a state of the list has an entry. */
  ghost predicate AllArmed(c: Chart, ts: seq<TimerEntry>, states: seq<nat>) {
    forall s: nat :: s in states ==> OwnArmed(c, ts, s)
  }

  ghost predicate OwnArmed(c: Chart, ts: seq<TimerEntry>, s: nat) {
    s < |c.states| ==> KeysHeld(ts, s, c.states[s].ownedTimers)
  }

  predicate KeysHeld(ts: seq<TimerEntry>, s: nat, tids: seq<nat>) {
    forall i :: 0 <= i < |tids| ==> HasKey(ts, s, tids[i])
  }

  /** A table with `more` appended as far as there is room. */
  function Fill(cap: nat, ts: seq<TimerEntry>, more: seq<TimerEntry>): (r: seq<TimerEntry>)
    requires |ts| <= cap
    ensures ts <= r && |r| == if |ts| + |more| <= cap then |ts| + |more| else cap
  {
    if |ts| + |more| <= cap then ts + more else ts + more[..cap - |ts|]
  }

  lemma FillTwice(cap: nat, ts: seq<TimerEntry>, a: seq<TimerEntry>, b: seq<TimerEntry>)
    requires |ts| <= cap
    ensures Fill(cap, Fill(cap, ts, a), b) == Fill(cap, ts, a + b)
  {
  }

  /** The entries of a state's timers, each at its full duration. */
  function FreshEntries(c: Chart, s: nat, tids: seq<nat>): (r: seq<TimerEntry>)
    ensures |r| == |tids| && forall i :: 0 <= i < |r| ==> r[i] == TimerEntry(s, tids[i], FullTime(c, tids[i]))
  {
    seq(|tids|, i requires 0 <= i < |tids| => TimerEntry(s, tids[i], FullTime(c, tids[i])))
  }

  /** The entries of all timers owned by a list of states, in order. */
  function FreshAll(c: Chart, ss: seq<nat>): seq<TimerEntry>
    requires PathInChart(c, ss)
  {
    if ss == [] then [] else FreshEntries(c, ss[0], c.states[ss[0]].ownedTimers) + FreshAll(c, ss[1..])
  }

  lemma {:induction false} FreshAllCount(c: Chart, ss: seq<nat>)
    requires PathInChart(c, ss)
    ensures |FreshAll(c, ss)| == OwnedCount(c, ss)
    decreases |ss|
  {
    if ss != [] {
      FreshAllCount(c, ss[1..]);
      OwnedCountFirst(c, ss);
    }
  }

  lemma HeldStays(before: seq<TimerEntry>, after: seq<TimerEntry>, s: nat, tids: seq<nat>)
    requires before <= after && KeysHeld(before, s, tids)
    ensures KeysHeld(after, s, tids)
  {
    forall i | 0 <= i < |tids| ensures HasKey(after, s, tids[i]) {
      var j :| 0 <= j < |before| && IsKey(before[j], s, tids[i]);
      assert IsKey(after[j], s, tids[i]);
    }
  }

  /** What arming a list of timers, none of them in the table, does to the table: they are appended
      at full duration as far as there is room, and all have entries exactly when all fit. */
  ghost predicate Arms(c: Chart, before: seq<TimerEntry>, after: seq<TimerEntry>, s: nat, tids: seq<nat>) {
    var cap := TimerCapacity(c);
    && |before| <= cap && after == Fill(cap, before, FreshEntries(c, s, tids))
    && (KeysHeld(after, s, tids) <==> |before| + |tids| <= cap)
  }

  /** Timers are appended while there is room; all are armed exactly when all fit. */
  lemma {:induction false} ArmAllExact<C, E>(env: Env<C, E>, m: Config<C, E>, alive: seq<nat>, s: nat, tids: seq<nat>)
    requires IsTree(env.chart) && TimersOk(env.chart, m.timers, alive) && ToArm(env.chart, m.timers, alive, s, tids)
    ensures TimersOk(env.chart, ArmAll(env, m, s, tids).timers, alive)
    ensures Arms(env.chart, m.timers, ArmAll(env, m, s, tids).timers, s, tids)
    decreases |tids|
  {
    if tids != [] {
      hide ArmAll;
      var c, t, ns := env.chart, tids[0], DurationOf(env.chart, tids[0]);
      var next := Arm(env, m, s, t);
      assert MayArm(c, m.timers, alive, s, t);
      StartFresh(c, m.timers, alive, s, t, ns);
      forall i | 0 <= i < |tids[1..]| ensures MayArm(c, next.timers, alive, s, tids[1..][i]) {
        assert MayArm(c, m.timers, alive, s, tids[i + 1]);
        StillMissing(m.timers, next.timers, s, t, tids[i + 1], ns);
      }
      ArmAllStep(env, m, s, tids);
      ArmAllExact(env, next, alive, s, tids[1..]);
      ArmsMore(c, m.timers, next.timers, ArmAll(env, m, s, tids).timers, s, tids);
    }
  }

  lemma ArmAllStep<C, E>(env: Env<C, E>, m: Config<C, E>, s: nat, tids: seq<nat>)
    requires tids != []
    ensures ArmAll(env, m, s, tids) == ArmAll(env, Arm(env, m, s, tids[0]), s, tids[1..])
  {
  }

  lemma ArmsMore(c: Chart, before: seq<TimerEntry>, next: seq<TimerEntry>, after: seq<TimerEntry>,
      s: nat, tids: seq<nat>)
    requires tids != [] && !HasKey(before, s, tids[0]) && |before| <= TimerCapacity(c)
    requires next == Fill(TimerCapacity(c), before, FreshEntries(c, s, [tids[0]]))
    requires Arms(c, next, after, s, tids[1..])
    ensures Arms(c, before, after, s, tids)
  {
    var cap := TimerCapacity(c);
    FillTwice(cap, before, FreshEntries(c, s, [tids[0]]), FreshEntries(c, s, tids[1..]));
    assert FreshEntries(c, s, tids) == FreshEntries(c, s, [tids[0]]) + FreshEntries(c, s, tids[1..]);
    if |before| < cap {
      assert IsKey(after[|before|], s, tids[0]);
      HeldFirst(after, s, tids);
    } else {
      assert after == before;
      assert !HasKey(after, s, tids[0]);
    }
  }

  lemma HeldFirst(ts: seq<TimerEntry>, s: nat, tids: seq<nat>)
    requires tids != []
    ensures KeysHeld(ts, s, tids) <==> HasKey(ts, s, tids[0]) && KeysHeld(ts, s, tids[1..])
  {
    hide HasKey;
    if KeysHeld(ts, s, tids) {
      forall i | 0 <= i < |tids[1..]| ensures HasKey(ts, s, tids[1..][i]) {
        assert HasKey(ts, s, tids[i + 1]);
      }
    }
    if HasKey(ts, s, tids[0]) && KeysHeld(ts, s, tids[1..]) {
      forall i | 0 <= i < |tids| ensures HasKey(ts, s, tids[i]) {
        if i > 0 { assert HasKey(ts, s, tids[1..][i - 1]); }
      }
    }
  }

  lemma StillMissing(ts: seq<TimerEntry>, ts': seq<TimerEntry>, s: nat, t: nat, t': nat, ns: nat)
    requires ts' == ts || ts' == ts + [TimerEntry(s, t, AsU64(ns))]
    requires t != t' && !HasKey(ts, s, t')
    ensures !HasKey(ts', s, t')
  {
  }

  /** Entering a state arms its timers in turn, at full duration, until the table is full. */
  lemma EnterArms<C, E>(env: Env<C, E>, m: Config<C, E>, s: nat)
    requires WellFormed(env.chart) && Extends(env.chart, m.path, s) && TimersOk(env.chart, m.timers, m.path)
    ensures TimersOk(env.chart, Enter(env, m, s).timers, m.path + [s])
    ensures Arms(env.chart, m.timers, Enter(env, m, s).timers, s, env.chart.states[s].ownedTimers)
  {
    hide Arms;
    var acted := InvokeAll(env, Log(m, [EnterBegan(s)]), s, env.chart.states[s].entries, EntryAction, None);
    ExtendsMayEnter(env.chart, m.path, s);
    OwnToArm(env.chart, acted.timers, m.path, s);
    ArmAllExact(env, acted, m.path + [s], s, env.chart.states[s].ownedTimers);
  }

  lemma {:induction false} OwnedCountFirst(c: Chart, ss: seq<nat>)
    requires ss != []
    ensures OwnedCount(c, ss) == OwnedBy(c, ss[0]) + OwnedCount(c, ss[1..])
  {
    if |ss| > 1 {
      OwnedCountFirst(c, ss[..|ss| - 1]);
      assert ss[..|ss| - 1][1..] == ss[1..][..|ss| - 2];
    }
  }

  /** What entering a list of states does to the table. */
  ghost predicate ArmsStates(c: Chart, before: seq<TimerEntry>, after: seq<TimerEntry>, ss: seq<nat>)
    requires PathInChart(c, ss)
  {
    var cap := TimerCapacity(c);
    && |before| <= cap && after == Fill(cap, before, FreshAll(c, ss))
    && (AllArmed(c, after, ss) <==> |before| + OwnedCount(c, ss) <= cap)
  }

  lemma ArmsStatesMore(c: Chart, before: seq<TimerEntry>, next: seq<TimerEntry>, after: seq<TimerEntry>, ss: seq<nat>)
    requires ss != [] && PathInChart(c, ss)
    requires Arms(c, before, next, ss[0], c.states[ss[0]].ownedTimers)
    requires ArmsStates(c, next, after, ss[1..])
    ensures ArmsStates(c, before, after, ss)
  {
    hide HasKey, FreshEntries;
    var tids := c.states[ss[0]].ownedTimers;
    OwnedCountFirst(c, ss);
    FillTwice(TimerCapacity(c), before, FreshEntries(c, ss[0], tids), FreshAll(c, ss[1..]));
    assert ss == [ss[0]] + ss[1..];
    if KeysHeld(next, ss[0], tids) {
      HeldStays(next, after, ss[0], tids);
      assert OwnArmed(c, after, ss[0]);
    } else {
      assert after == next;
      assert !OwnArmed(c, after, ss[0]);
    }
  }

  lemma {:induction false} EnterAllArms<C, E>(env: Env<C, E>, m: Config<C, E>, ss: seq<nat>, target: nat)
    requires WellFormed(env.chart) && PathInChart(env.chart, ss) && TimersOk(env.chart, m.timers, m.path)
    requires target < |env.chart.states| && m.path + ss == RootPath(env.chart, target)
    ensures ArmsStates(env.chart, m.timers, EnterAll(env, m, ss).timers, ss)
    decreases |ss|
  {
    hide ArmsStates, Arms, TimersOk, Enter, RootPath, FreshAll, OwnedCount, AllArmed;
    if ss == [] {
      ArmsNothing(env.chart, m.timers, m.path);
    } else {
      NextExtends(env.chart, m.path, ss, target);
      EnterArms(env, m, ss[0]);
      assert [ss[0]] + ss[1..] == ss;
      Assoc(m.path, [ss[0]], ss[1..]);
      EnterAllArms(env, Enter(env, m, ss[0]), ss[1..], target);
      ArmsStatesMore(env.chart, m.timers, Enter(env, m, ss[0]).timers, EnterAll(env, m, ss).timers, ss);
    }
  }

  lemma ArmsNothing(c: Chart, ts: seq<TimerEntry>, alive: seq<nat>)
    requires TimersOk(c, ts, alive)
    ensures ArmsStates(c, ts, ts, [])
  {
  }

  lemma {:induction false} ExitToOwned<C, E>(env: Env<C, E>, m: Config<C, E>, k: nat)
    requires k <= |m.path| && PathInChart(env.chart, m.path) && TimersOk(env.chart, m.timers, m.path)
    ensures TimersOk(env.chart, ExitTo(env, m, k).timers, m.path[..k])
    decreases |m.path|
  {
    if |m.path| == k {
      assert m.path[..k] == m.path;
    } else {
      CancelledOk(env.chart, m.timers, m.path);
      ExitToOwned(env, Exit(env, m), k);
      assert m.path[..|m.path| - 1][..k] == m.path[..k];
    }
  }

  /** The entries that leaving some states leaves behind. */
  function Survivors(ts: seq<TimerEntry>, gone: seq<nat>): seq<TimerEntry> {
    if ts == [] then []
    else
      var last := ts[|ts| - 1];
      Survivors(ts[..|ts| - 1], gone) + if last.state !in gone then [last] else []
  }

  lemma {:induction false} SurvivorsCancelled(ts: seq<TimerEntry>, gone: seq<nat>, s: nat)
    ensures Survivors(Cancelled(ts, s), gone) == Survivors(ts, gone + [s])
  {
    if ts != [] {
      var n := |ts| - 1;
      SurvivorsCancelled(ts[..n], gone, s);
      var front := Cancelled(ts[..n], s);
      assert (front + [ts[n]])[..|front|] == front;
      NoMoves(front);
    }
  }

  lemma {:induction false} NoneGone(ts: seq<TimerEntry>)
    ensures Survivors(ts, []) == ts
  {
    if ts != [] { NoneGone(ts[..|ts| - 1]); }
  }

  lemma ExitCancels<C, E>(env: Env<C, E>, m: Config<C, E>)
    requires m.path != [] && Last(m.path) < |env.chart.states|
    ensures Exit(env, m).timers == Cancelled(m.timers, Last(m.path))
  {
  }

  /** Leaving states removes exactly their entries. */
  lemma {:induction false} ExitToSurvivors<C, E>(env: Env<C, E>, m: Config<C, E>, k: nat)
    requires k <= |m.path| && PathInChart(env.chart, m.path)
    ensures ExitTo(env, m, k).timers == Survivors(m.timers, m.path[k..])
    decreases |m.path|
  {
    hide Survivors, Cancelled, InvokeAll;
    if |m.path| == k {
      NoneGone(m.timers);
    } else {
      var front, s := m.path[..|m.path| - 1], Last(m.path);
      ExitCancels(env, m);
      ExitToSurvivors(env, Exit(env, m), k);
      SurvivorsCancelled(m.timers, front[k..], s);
      assert m.path[k..] == front[k..] + [s];
    }
  }

  /** Any transition of a machine keeps the entries of the states it does not leave and appends
      the timers of the states it enters, at full duration, as far as there is room. All of them
      have entries exactly when they fit beside those kept. The table is sized by the chart's
      distinct durations, so states sharing one can fail to fit. */
  lemma TravelArmsIffFits<C, E>(env: Env<C, E>, m: Config<C, E>, target: nat)
    requires WellFormed(env.chart) && Active(env, m) && TimersOk(env.chart, m.timers, m.path)
    requires target < |env.chart.states|
    ensures PathInChart(env.chart, RootPath(env.chart, target)[Kept(env.chart, m.path, target)..])
    ensures var k, to := Kept(env.chart, m.path, target), RootPath(env.chart, target);
      ArmsStates(env.chart, Survivors(m.timers, m.path[k..]), Travel(env, m, target).timers, to[k..])
  {
    hide ArmsStates;
    var k, to := Kept(env.chart, m.path, target), RootPath(env.chart, target);
    Rejoin(env.chart, m.path, target);
    ExitToOwned(env, m, k);
    ExitToSurvivors(env, m, k);
    EnterAllArms(env, ExitTo(env, m, k), to[k..], target);
  }

  lemma {:induction false} OwnedCountSplit(c: Chart, a: seq<nat>, b: seq<nat>)
    ensures OwnedCount(c, a + b) == OwnedCount(c, a) + OwnedCount(c, b)
    decreases |b|
  {
    if b == [] {
      assert a + b == a;
    } else {
      var n := |b| - 1;
      OwnedCountSplit(c, a, b[..n]);
      assert (a + b)[..|a + b| - 1] == a + b[..n];
    }
  }

  /** Where the chain of the target owns no more timers than the table holds, a transition to it
      loses none: every timer of every state it enters starts at its full duration. */
  lemma FittingTravelArmsAll<C, E>(env: Env<C, E>, m: Config<C, E>, target: nat)
    requires WellFormed(env.chart) && Active(env, m) && TimersOk(env.chart, m.timers, m.path)
    requires target < |env.chart.states| && FitsAt(env.chart, target)
    ensures PathInChart(env.chart, RootPath(env.chart, target)[Kept(env.chart, m.path, target)..])
    ensures var k := Kept(env.chart, m.path, target);
      var entered, after := RootPath(env.chart, target)[k..], Travel(env, m, target).timers;
      && AllArmed(env.chart, after, entered)
      && after == Survivors(m.timers, m.path[k..]) + FreshAll(env.chart, entered)
  {
    hide Keys, TableKeys, AllArmed, RootPath;
    var c, k, to := env.chart, Kept(env.chart, m.path, target), RootPath(env.chart, target);
    TravelArmsIffFits(env, m, target);
    ExitToSurvivors(env, m, k);
    ExitToOwned(env, m, k);
    var left := Survivors(m.timers, m.path[k..]);
    TableKeysCount(left);
    TableKeysOwned(c, left, m.path[..k]);
    SubsetCount(TableKeys(left), Keys(c, m.path[..k]));
    Rejoin(c, m.path, target);
    OwnedCountSplit(c, m.path[..k], to[k..]);
    FreshAllCount(c, to[k..]);
  }

  // ----- whole runs -----

  lemma {:induction false} KeysOwned(c: Chart, path: seq<nat>, s: nat, t: nat)
    requires (s, t) in Keys(c, path)
    ensures s in path && s < |c.states| && t in c.states[s].ownedTimers
  {
    if path != [] && (s, t) in Keys(c, path[..|path| - 1]) { KeysOwned(c, path[..|path| - 1], s, t); }
  }

  lemma {:induction false} KeysCount(c: Chart, target: nat, k: nat)
    requires WellFormed(c) && target < |c.states| && k <= |RootPath(c, target)|
    ensures |Keys(c, RootPath(c, target)[..k])| == OwnedCount(c, RootPath(c, target)[..k])
    decreases k
  {
    hide RootPath;
    if k > 0 {
      var p := RootPath(c, target);
      var front, s := p[..k - 1], p[k - 1];
      assert p[..k][..k - 1] == front;
      KeysCount(c, target, k - 1);
      assert StateOk(c, s);
      OwnKeysExact(s, c.states[s].ownedTimers);
      forall i | 0 <= i < k - 1 ensures p[i] != s { RootPathDistinct(c, target, i, k - 1); }
      NewKeys(c, front, s);
    }
  }

  lemma NewKeys(c: Chart, front: seq<nat>, s: nat)
    requires s < |c.states| && s !in front
    ensures |Keys(c, front) + OwnKeys(s, c.states[s].ownedTimers)|
      == |Keys(c, front)| + |OwnKeys(s, c.states[s].ownedTimers)|
  {
    hide Keys;
    var own := OwnKeys(s, c.states[s].ownedTimers);
    forall x | x in Keys(c, front) ensures x !in own { KeysOwned(c, front, x.0, x.1); }
  }

  lemma {:induction false} OwnKeysExact(s: nat, ts: seq<nat>)
    requires forall i, j :: 0 <= i < j < |ts| ==> ts[i] != ts[j]
    ensures |OwnKeys(s, ts)| == |ts|
  {
    if ts != [] {
      var n := |ts| - 1;
      OwnKeysExact(s, ts[..n]);
      assert OwnKeys(s, ts) == OwnKeys(s, ts[..n]) + {(s, ts[n])};
      assert (s, ts[n]) !in OwnKeys(s, ts[..n]);
    }
  }

  lemma ArmedKeys(c: Chart, ts: seq<TimerEntry>, path: seq<nat>)
    requires AllArmed(c, ts, path)
    ensures Keys(c, path) <= TableKeys(ts)
  {
    hide Keys;
    forall x | x in Keys(c, path) ensures x in TableKeys(ts) {
      KeysOwned(c, path, x.0, x.1);
      KeyArmed(c, ts, path, x.0, x.1);
    }
  }

  lemma KeyArmed(c: Chart, ts: seq<TimerEntry>, path: seq<nat>, s: nat, t: nat)
    requires AllArmed(c, ts, path) && s in path && s < |c.states| && t in c.states[s].ownedTimers
    ensures (s, t) in TableKeys(ts)
  {
    assert OwnArmed(c, ts, s);
    var j :| 0 <= j < |c.states[s].ownedTimers| && c.states[s].ownedTimers[j] == t;
    assert HasKey(ts, s, c.states[s].ownedTimers[j]);
    var i :| 0 <= i < |ts| && IsKey(ts[i], s, t);
    assert (ts[i].state, ts[i].trigger) == (s, t);
  }

  /** In every run, where the active chain owns more timers than the table holds, some timer that
      an active state owns has no entry. */
  lemma OverfullChainLosesATimer<C, E>(env: Env<C, E>, ctx: C, inputs: seq<Input<E>>)
    requires Ready(env.chart)
    ensures var m := Run(env, ctx, inputs);
      m.path != [] && !FitsAt(env.chart, Last(m.path)) ==> !AllArmed(env.chart, m.timers, m.path)
  {
    hide Keys, TableKeys, ReadLog, RunLog, ApplyAll;
    RunReads(env, ctx, inputs, 0, 0);
    var m := Run(env, ctx, inputs);
    if m.path != [] && AllArmed(env.chart, m.timers, m.path) {
      ArmedFit(env.chart, m.timers, Last(m.path));
    }
  }

  lemma ArmedFit(c: Chart, ts: seq<TimerEntry>, s: nat)
    requires WellFormed(c) && s < |c.states| && TimersOk(c, ts, RootPath(c, s)) && AllArmed(c, ts, RootPath(c, s))
    ensures FitsAt(c, s)
  {
    hide Keys, TableKeys;
    var p := RootPath(c, s);
    assert p[..|p|] == p;
    KeysCount(c, s, |p|);
    ArmedKeys(c, ts, p);
    TableKeysCount(ts);
    SubsetCount(Keys(c, p), TableKeys(ts));
  }
}
