/** The generated machine: it runs off the precomputed tables only. Every method is proved equal
    to the reference interpreter's step on the abstract configuration. */
module Machines {
  import opened Wrappers
  import opened Charts
  import opened Tree
  import opened Flat
  import opened Tables
  import opened Handlers
  import opened Validate
  import opened Timers
  import opened Dispatch
  import opened Trace
  import opened Reference

  predicate OwnedBelow(c: Chart, s: nat)
    requires s < |c.states|
  {
    forall i :: 0 <= i < |c.states[s].ownedTimers| ==> c.states[s].ownedTimers[i] < |c.durations|
  }

  predicate OwnedInRange(c: Chart) {
    forall s: nat :: s < |c.states| ==> OwnedBelow(c, s)
  }

  lemma ExitToStep<C, E>(env: Env<C, E>, m: Config<C, E>, k: nat)
    requires k < |m.path| && PathInChart(env.chart, m.path)
    ensures ExitTo(env, m, k) == ExitTo(env, Exit(env, m), k)
  {
  }

  class Machine<C, E> {
    const env: Env<C, E>
    const paths: PathTables
    const events: DispatchTables
    const depth: seq<nat>
    const timers: TimerTable
    var ctx: C
    var current: Option<nat>
    var queue: seq<E>
    var terminated: bool
    var overflow: bool
    var journal: seq<TraceEvent>
    /** The active path; `current` is stale while states are being exited. */
    ghost var path: seq<nat>
    ghost var cameIn: seq<E>
    ghost var takenOut: seq<E>

    ghost predicate PathsBuilt() {
      IsTree(env.chart) && PathTablesOk(env.chart, paths)
    }

    /** The tables are those of an accepted chart. */
    ghost predicate Built() {
      && Ready(env.chart)
      && PathsBuilt()
      && DispatchOk(env.chart, events)
      && depth == Depths(env.chart)
      && timers.capacity == TimerCapacity(env.chart)
      && |env.chart.states| <= U16_MAX
    }

    ghost predicate TimersInChart()
      reads timers
    {
      && (forall i :: 0 <= i < |timers.entries| ==> timers.entries[i].state < |env.chart.states|)
      && (|env.chart.durations| == 0 ==> timers.entries == [])
    }

    ghost function Abs(): Config<C, E>
      reads this, timers
    {
      Config(ctx, path, queue, cameIn, takenOut, timers.entries, terminated, overflow, journal)
    }

    /** Holds throughout a step, also between exits and enters. */
    ghost predicate Running()
      reads this, timers
    {
      TimersInChart() && !terminated && PathInChart(env.chart, path) && OwnedInRange(env.chart)
      && timers.capacity == TimerCapacity(env.chart)
    }

    /** Holds between operations of a step: `current` is the innermost active state. */
    ghost predicate Standing()
      reads this, timers
    {
      Built() && Running() && Active(env, Abs()) && current == Some(Last(path))
    }

    /** Holds between calls: `current` is the innermost state of the active path. */
    ghost predicate Valid()
      reads this, timers
    {
      && Built() && TimersInChart() && Resting(env, Abs())
      && current == (if path == [] then None else Some(Last(path)))
    }

    constructor (env: Env<C, E>, paths: PathTables, events: DispatchTables, ctx: C)
      requires Ready(env.chart) && PathTablesOk(env.chart, paths) && DispatchOk(env.chart, events)
      requires |env.chart.states| <= U16_MAX
      ensures Valid() && Abs() == Init(ctx) && this.env == env && fresh(timers)
    {
      this.env, this.paths, this.events, this.ctx := env, paths, events, ctx;
      depth := Depths(env.chart);
      timers := new TimerTable(TimerCapacity(env.chart));
      current, queue, terminated, overflow, journal := None, [], false, false, [];
      path, cameIn, takenOut := [], [], [];
    }

    // ----- user actions -----

    /** `emit` from inside an action, through the overflow-recording proxy. */
    method Emit(e: E) returns (r: SendResult)
      modifies `queue, `cameIn, `overflow, `journal
      ensures terminated ==> r == AlreadyTerminated && Abs() == old(Abs())
      ensures !terminated ==> r == if !old(overflow) && |old(queue)| < env.queueCapacity then Sent else QueueFull
      ensures r == Sent ==> Abs() == Log(Push(old(Abs()), e), [EmitQueued(EventId(env, e))])
      ensures r == QueueFull ==> Abs() == Log(old(Abs()).(overflow := true), [EmitFailed(EventId(env, e))])
    {
      if terminated { return AlreadyTerminated; }
      var id := EventId(env, e);
      if overflow {
        r := QueueFull;
      } else if |queue| < env.queueCapacity {
        queue, cameIn := queue + [e], cameIn + [e];
        r := Sent;
      } else {
        overflow := true;
        r := QueueFull;
      }
      journal := journal + [if r == Sent then EmitQueued(id) else EmitFailed(id)];
    }

    method RunAction(aid: nat, ev: Option<E>)
      requires !terminated
      modifies `ctx, `queue, `cameIn, `overflow, `journal
      ensures Abs() == RunAct(env, old(Abs()), env.act(aid, old(ctx), ev))
    {
      var a := env.act(aid, ctx, ev);
      while a.Emit?
        invariant RunAct(env, Abs(), a) == RunAct(env, old(Abs()), env.act(aid, old(ctx), ev))
        decreases a
      {
        var r := Emit(a.event);
        match r {
          case Sent => a := a.onOk;
          case QueueFull => a := a.onFull;
          case AlreadyTerminated => assert false;  // no action runs on a terminated machine
        }
      }
      ctx := a.ctx;
    }

    // ----- one state in, one state out -----

    method RunEntries(s: nat, ids: seq<nat>, kind: ActionKind)
      requires !terminated
      modifies `ctx, `queue, `cameIn, `overflow, `journal
      ensures Abs() == InvokeAll(env, old(Abs()), s, ids, kind, None)
    {
      var i := 0;
      while i < |ids|
        invariant i <= |ids|
        invariant InvokeAll(env, Abs(), s, ids[i..], kind, None) == InvokeAll(env, old(Abs()), s, ids, kind, None)
      {
        journal := journal + [ActionInvoked(s, ids[i], kind)];
        RunAction(ids[i], None);
        if terminated { return; }
        assert ids[i..][1..] == ids[i + 1..];
        i := i + 1;
      }
    }

    method ArmTimers(s: nat, tids: seq<nat>)
      requires timers.capacity == TimerCapacity(env.chart)
      requires TimersInChart() && s < |env.chart.states|
      requires forall i :: 0 <= i < |tids| ==> tids[i] < |env.chart.durations|
      modifies `journal, timers
      ensures TimersInChart() && Abs() == ArmAll(env, old(Abs()), s, tids)
    {
      var i := 0;
      while i < |tids|
        invariant i <= |tids| && TimersInChart()
        invariant ArmAll(env, Abs(), s, tids[i..]) == ArmAll(env, old(Abs()), s, tids)
      {
        var d := DurationOf(env.chart, tids[i]);
        timers.Start(s, tids[i], d);
        journal := journal + [TimerArmed(s, tids[i], AsU64(d))];
        assert tids[i..][1..] == tids[i + 1..];
        i := i + 1;
      }
    }

    method JournalDurings(s: nat, started: bool)
      requires s < |env.chart.states|
      modifies `journal
      ensures var n := env.chart.states[s].durings;
        journal == old(journal) + if started then DuringsStarted(s, n) else DuringsCancelled(s, n)
    {
      var n := env.chart.states[s].durings;
      ghost var all := if started then DuringsStarted(s, n) else DuringsCancelled(s, n);
      var d := 0;
      while d < n
        invariant d <= n && journal == old(journal) + all[..d]
      {
        journal := journal + [if started then DuringStarted(s, d) else DuringCancelled(s, d)];
        d := d + 1;
      }
      assert all[..d] == all;
    }

    method JournalTimersCancelled(s: nat, tids: seq<nat>)
      modifies `journal
      ensures journal == old(journal) + TimersCancelled(s, tids)
    {
      ghost var all := TimersCancelled(s, tids);
      var i := 0;
      while i < |tids|
        invariant i <= |tids| && journal == old(journal) + all[..i]
      {
        journal := journal + [TimerCancelled(s, tids[i])];
        i := i + 1;
      }
      assert all[..i] == all;
    }

    method EnterState(s: nat)
      requires Running() && s < |env.chart.states|
      modifies this, timers
      ensures Running() && current == Some(s)
      ensures Abs() == Enter(env, old(Abs()), s)
    {
      hide InvokeAll, ArmAll;
      var st := env.chart.states[s];
      journal := journal + [EnterBegan(s)];
      RunEntries(s, st.entries, EntryAction);
      if terminated { return; }
      assert OwnedBelow(env.chart, s);
      ArmTimers(s, st.ownedTimers);
      current := Some(s);
      path := path + [s];
      JournalDurings(s, true);
      journal := journal + [Entered(s)];
    }

    method StopState(s: nat)
      requires Running() && path != [] && Last(path) == s
      modifies `journal, timers
      ensures Running() && Abs() == Stop(env, old(Abs()))
    {
      var st := env.chart.states[s];
      journal := journal + [ExitBegan(s)];
      JournalDurings(s, false);
      JournalTimersCancelled(s, st.ownedTimers);
      ghost var before := timers.entries;
      if |env.chart.durations| > 0 { timers.CancelState(s); }
      CancelledSubset(before, s);
    }

    /** Exits `s`, which is the innermost state still active. */
    method ExitState(s: nat)
      requires Running() && path != [] && Last(path) == s
      modifies this, timers
      ensures Running() && current == old(current)
      ensures Abs() == Exit(env, old(Abs()))
    {
      hide InvokeAll, Stop;
      var st := env.chart.states[s];
      StopState(s);
      RunEntries(s, st.exits, ExitAction);
      if terminated { return; }
      journal := journal + [Exited(s)];
      path := path[..|path| - 1];
    }

    /** Applies the exit part of a path: the innermost states down to depth `k`. */
    method ExitAll(exits: seq<nat>, ghost k: nat)
      requires Running() && k <= |path| && |exits| == |path| - k
      requires forall j :: 0 <= j < |exits| ==> exits[j] == path[|path| - 1 - j]
      modifies this, timers
      ensures Running() && current == old(current)
      ensures Abs() == ExitTo(env, old(Abs()), k)
    {
      ghost var p, goal := path, ExitTo(env, Abs(), k);
      var i := 0;
      while i < |exits|
        invariant i <= |exits| && Running() && current == old(current)
        invariant path <= p && |path| == |p| - i
        invariant ExitTo(env, Abs(), k) == goal
      {
        assert exits[i] == Last(path);
        ExitToStep(env, Abs(), k);
        ExitState(exits[i]);
        i := i + 1;
      }
    }

    method EnterPath(enters: seq<nat>)
      requires Running() && PathInChart(env.chart, enters)
      modifies this, timers
      ensures Running() && Abs() == EnterAll(env, old(Abs()), enters)
      ensures enters != [] ==> current == Some(Last(enters))
    {
      var i := 0;
      while i < |enters|
        invariant i <= |enters| && Running()
        invariant i > 0 ==> current == Some(enters[i - 1])
        invariant EnterAll(env, Abs(), enters[i..]) == EnterAll(env, old(Abs()), enters)
      {
        assert enters[i..][1..] == enters[i + 1..];
        EnterState(enters[i]);
        if terminated { return; }
        i := i + 1;
      }
    }

    // ----- transitions -----

    /** One range lookup and two slices. */
    method LookupPath(from: nat, target: nat) returns (exitPath: seq<nat>, enterPath: seq<nat>)
      requires PathsBuilt() && from < |env.chart.states| && target < |env.chart.states|
      ensures exitPath == ExitRoute(env.chart, from, target)
      ensures enterPath == EnterRoute(env.chart, from, target)
    {
      assert PathEntryOk(env.chart, paths, from, target);
      var (s, mid, e) := paths.pathRange[PairIndex(from, target, |env.chart.states|)];
      exitPath := paths.pathData[s..mid];
      enterPath := paths.pathData[mid..e];
    }

    method ApplyRoute(exitPath: seq<nat>, enterPath: seq<nat>, target: nat, ghost k: nat) returns (entered: bool)
      requires Running() && k <= |path| && |exitPath| == |path| - k
      requires forall j :: 0 <= j < |exitPath| ==> exitPath[j] == path[|path| - 1 - j]
      requires PathInChart(env.chart, enterPath) && (enterPath != [] ==> Last(enterPath) == target)
      modifies this, timers
      ensures Running() && current == Some(target)
      ensures Abs() == EnterAll(env, ExitTo(env, old(Abs()), k), enterPath)
      ensures entered == (enterPath != [])
    {
      ExitAll(exitPath, k);
      EnterPath(enterPath);
      if enterPath == [] {
        current := Some(target);
        entered := false;
      } else {
        entered := true;
      }
    }

    /** Applies the precomputed exits, then the enters; true if anything was entered. */
    method ApplyPath(from: nat, target: nat) returns (entered: bool)
      requires PathsBuilt() && Running() && Active(env, Abs()) && from == Last(path) && target < |env.chart.states|
      modifies this, timers
      ensures Running() && current == Some(target)
      ensures Abs() == Travel(env, old(Abs()), target)
      ensures entered == EntersFrom(env.chart, old(path), target)
    {
      var exitPath, enterPath := LookupPath(from, target);
      Rejoin(env.chart, path, target);
      entered := ApplyRoute(exitPath, enterPath, target, Kept(env.chart, path, target));
    }

    method LookupDefault(s: nat) returns (target: Option<nat>)
      requires Built() && s < |env.chart.states|
      ensures target == Next(env.chart, s) && (target.Some? ==> target.value < |env.chart.states|)
    {
      assert DefaultAt(env.chart, paths, s);
      NextInChart(env.chart, s);
      target := paths.defaultTarget[s];
    }

    /** One default transition out of the innermost state. */
    method FireDefault(cur: nat, target: nat) returns (entered: bool)
      requires PathsBuilt() && Running() && Active(env, Abs()) && current == Some(cur) && cur == Last(path)
      requires target < |env.chart.states|
      modifies this, timers
      ensures Running() && current == Some(target)
      ensures Abs() == DefaultFired(env, old(Abs()), target)
      ensures entered == EntersFrom(env.chart, old(path), target)
    {
      hide Travel, RootPath, EntersFrom;
      journal := journal + [TransitionFired(current, target, Reason.Internal)];
      var from := current;
      entered := ApplyPath(cur, target);
      journal := journal + [TransitionComplete(from, target)];
    }

    /** Fires defaults until a state without one is entered, or nothing is. */
    method FollowAll()
      requires Standing()
      modifies this, timers
      ensures Standing()
      ensures Abs() == FollowDefaults(env, old(Abs()))
    {
      hide RootPath, DefaultFired, EntersFrom;
      ghost var goal := FollowDefaults(env, Abs());
      while current.Some?
        invariant Standing()
        invariant FollowDefaults(env, Abs()) == goal
        decreases RankOf(env.chart)[Last(path)]
      {
        var cur := current.value;
        ghost var m := Abs();
        var next := LookupDefault(cur);
        match next {
          case None => return;
          case Some(target) =>
            var entered := FireDefault(cur, target);
            FollowStep(env, m, target);
            if terminated { return; }
            if !entered { return; }
        }
      }
    }

    method Transition(target: nat)
      requires Standing() && target < |env.chart.states|
      modifies this, timers
      ensures Standing()
      ensures Abs() == var there := Travel(env, old(Abs()), target);
        if EntersFrom(env.chart, old(path), target) then FollowDefaults(env, there) else there
    {
      hide Travel, FollowDefaults, RootPath, EntersFrom;
      var from := if current.Some? then current.value else target;
      var entered := ApplyPath(from, target);
      if terminated { return; }
      if entered { FollowAll(); }
    }

    method FireTransition(target: nat, reason: Reason)
      requires Standing() && target < |env.chart.states|
      modifies this, timers
      ensures Standing()
      ensures Abs() == Fire(env, old(Abs()), target, reason)
    {
      hide Travel, FollowDefaults, RootPath, EntersFrom;
      journal := journal + [TransitionFired(current, target, reason)];
      var from := current;
      Transition(target);
      journal := journal + [TransitionComplete(from, target)];
    }

    /** The actions of a group, in order; what is left to run is the rest of `kinds`. */
    method RunActions(source: nat, actions: seq<nat>, ghost kinds: seq<HandlerKind>, ev: Option<E>, reason: Reason)
      requires Standing() && |actions| <= |kinds|
      requires forall i :: 0 <= i < |actions| ==> kinds[i] == Action(actions[i])
      requires forall i :: 0 <= i < |kinds| && kinds[i].Transition? ==> kinds[i].target < |env.chart.states|
      modifies this, timers
      ensures Standing()
      ensures RunDeclared(env, Abs(), source, kinds[|actions|..], ev, reason)
        == RunDeclared(env, old(Abs()), source, kinds, ev, reason)
    {
      hide RunDeclared, RunAct;
      ghost var goal := RunDeclared(env, Abs(), source, kinds, ev, reason);
      var i := 0;
      assert kinds[0..] == kinds;
      while i < |actions|
        invariant i <= |actions| && Standing()
        invariant RunDeclared(env, Abs(), source, kinds[i..], ev, reason) == goal
      {
        RunNext(env, Abs(), source, kinds, i, actions[i], ev, reason);
        journal := journal + [ActionInvoked(source, actions[i], HandlerAction)];
        RunAction(actions[i], ev);
        if terminated { return; }
        i := i + 1;
      }
    }

    /** A group's actions in order, then its transition. */
    method RunHandlers(source: nat, group: Group, ev: Option<E>, reason: Reason)
      requires Standing()
      requires group.target.Some? ==> group.target.value < |env.chart.states|
      modifies this, timers
      ensures Standing()
      ensures Abs() == RunDeclared(env, old(Abs()), source, Expand(group), ev, reason)
    {
      hide Fire, RunAct;
      ghost var kinds := Expand(group);
      RunActions(source, group.actions, kinds, ev, reason);
      if terminated { return; }
      if group.target.Some? {
        var target := group.target.value;
        assert kinds[|group.actions|..] == [HandlerKind.Transition(target)];
        RunOne(env, Abs(), source, target, ev, reason);
        FireTransition(target, reason);
      } else {
        assert kinds[|group.actions|..] == [];
      }
    }

    /** The lookup table's group for a state and trigger, run if there is one. */
    method RunLookup(s: nat, trigger: Trigger, ev: Option<E>, reason: Reason)
      requires Standing() && s < |env.chart.states|
      modifies this, timers
      ensures Standing()
      ensures Abs() == RunTrigger(env, old(Abs()), s, trigger, ev, reason)
    {
      assert LookupAt(env.chart, events, s);
      assert GroupIs(events.lookup[s], env.chart.states[s].handlers, trigger);
      if trigger in events.lookup[s] {
        TriggerByGroup(env, Abs(), s, trigger, ev, reason);
        RunHandlers(s, events.lookup[s][trigger], ev, reason);
      }
    }

    /** Resolves an event in the dispatch table; the sentinel means nobody handles it. */
    method DeliverEvent(e: E)
      requires Standing()
      modifies this, timers
      ensures Standing()
      ensures Abs() == Deliver(env, old(Abs()), e)
    {
      var id := EventId(env, e);
      if id != U16_MAX && current.Some? {
        var cur := current.value;
        assert DispatchAt(env.chart, events, cur, id);
        var entry := events.dispatch[PairIndex(cur, id, env.chart.nEvents)];
        if entry.handlerState != U16_MAX {
          journal := journal + [EventDelivered(entry.handlerState, id)];
          TriggerByGroup(env, Abs(), entry.handlerState, Trigger.Event(id), Some(e), Reason.Event(id));
          RunHandlers(entry.handlerState, entry.group, Some(e), Reason.Event(id));
        } else {
          journal := journal + [EventDropped(id)];
        }
      } else {
        journal := journal + [EventDropped(id)];
      }
    }

    method FireExpired(state: nat, trigger: nat, ghost m: Config<C, E>, ghost i: nat)
      requires Standing() && |env.chart.durations| > 0
      requires i < |m.timers| && m.timers[i].state == state && m.timers[i].trigger == trigger
      requires state < |env.chart.states|
      requires Active(env, m) && Abs() == m.(timers := SwapRemove(m.timers, i))
      modifies this, timers
      ensures Standing()
      ensures Abs() == FireTimer(env, m, i)
    {
      hide RunTrigger, RootPath;
      journal := journal + [TimerFired(state, trigger)];
      if Repeats(env.chart, trigger) {
        var d := DurationOf(env.chart, trigger);
        timers.Start(state, trigger, d);
        journal := journal + [TimerArmed(state, trigger, AsU64(d))];
      }
      RunLookup(state, Duration(trigger), None, Reason.Timer(state, trigger));
    }

    /** Exits the looked-up chain through the root, drops the queue, and is done. */
    method DoTerminate()
      requires Standing()
      modifies this, timers
      ensures Valid() && Abs() == Shutdown(env, old(Abs()))
    {
      if current.Some? {
        var cur := current.value;
        assert TerminateEntryOk(env.chart, paths, cur);
        var (s, e) := paths.terminateRange[cur];
        ExitAll(paths.terminateData[s..e], 0);
      }
      terminated := true;
      current := None;
      queue := [];
      journal := journal + [Terminated];
    }

    method NextDeadline() returns (r: Option<nat>)
      requires TimersInChart()
      ensures r == MinRemaining(timers.entries)
    {
      if |env.chart.durations| > 0 { r := timers.Minimum(); } else { r := None; }
    }

    // ----- the public interface -----

    method Step(elapsed: nat) returns (next: Option<nat>)
      requires Valid()
      modifies this, timers
      ensures Valid()
      ensures Reference.Step(env, old(Abs()), elapsed) == (Abs(), next)
    {
      if terminated { return None; }
      OwnedBelowAll(env.chart);
      if current.None? {
        journal := journal + [Started(env.chart.hash)];
        EnterState(0);
        FollowAll();
        next := NextDeadline();
        return;
      }
      next := Work(elapsed);
    }

    /** Lets time pass and takes the next expired timer out of the table. */
    method CountDown(elapsed: nat) returns (fired: Option<(nat, nat)>)
      requires Standing()
      modifies timers
      ensures Standing()
      ensures var now := old(Abs()).(timers := Decremented(old(timers.entries), elapsed));
        match NextExpired(now.timers, depth)
        case None => fired == None && Abs() == now
        case Some(i) =>
          && fired == Some((now.timers[i].state, now.timers[i].trigger))
          && fired.value.0 < |env.chart.states| && |env.chart.durations| > 0
          && Abs() == now.(timers := SwapRemove(now.timers, i))
    {
      fired := None;
      if |env.chart.durations| > 0 {
        timers.Decrement(elapsed);
        fired := timers.PopExpired(depth);
      }
    }

    /** Takes the head of the queue: the terminate event ends the machine, any other is delivered. */
    method Receive() returns (next: Option<nat>)
      requires Standing() && queue != []
      modifies this, timers
      ensures Valid()
      ensures Reference.Receive(env, old(Abs())) == (Abs(), next)
    {
      hide Deliver, Shutdown, MinRemaining;
      var e := queue[0];
      var id := EventId(env, e);
      takenOut := takenOut + [e];
      queue := queue[1..];
      journal := journal + [EventReceived(id)];
      if env.chart.terminate == Some(env.variant(e)) {
        journal := journal + [TerminateRequested(id)];
        DoTerminate();
        return None;
      }
      DeliverEvent(e);
      next := NextDeadline();
    }

    method Work(elapsed: nat) returns (next: Option<nat>)
      requires Standing()
      modifies this, timers
      ensures Valid()
      ensures Reference.Step(env, old(Abs()), elapsed) == (Abs(), next)
    {
      hide FireTimer, Reference.Receive, Start, MinRemaining, Decremented, NextExpired;
      ghost var now := Abs().(timers := Decremented(timers.entries, elapsed));
      var fired := CountDown(elapsed);
      if fired.Some? {
        FireExpired(fired.value.0, fired.value.1, now, NextExpired(now.timers, depth).value);
        next := NextDeadline();
      } else if queue != [] {
        next := Receive();
      } else {
        next := NextDeadline();
      }
    }

    method Send(e: E) returns (r: SendResult)
      requires Valid()
      modifies `queue, `cameIn
      ensures Valid() && Reference.Send(env, old(Abs()), e) == (Abs(), r)
      ensures r ==
        if terminated then AlreadyTerminated else if |old(queue)| < env.queueCapacity then Sent else QueueFull
      ensures queue == if r == Sent then old(queue) + [e] else old(queue)
    {
      if terminated { return AlreadyTerminated; }
      if |queue| < env.queueCapacity {
        queue, cameIn := queue + [e], cameIn + [e];
        r := Sent;
      } else {
        r := QueueFull;
      }
    }

    method TakeOverflow() returns (v: bool)
      requires Valid()
      modifies `overflow
      ensures Valid() && Reference.TakeOverflow(old(Abs())) == (Abs(), v)
      ensures v == old(overflow) && !overflow
    {
      v := overflow;
      overflow := false;
    }

    /** One step without time passing, after which the overflow flag is taken. */
    method DrainOne() returns (full: bool)
      requires Valid()
      modifies this, timers
      ensures Valid() && (Abs(), full) == Reference.TakeOverflow(Reference.Step(env, old(Abs()), 0).0)
    {
      var _ := Step(0);
      full := TakeOverflow();
    }

    /** Queues an event, then steps until the queue is empty, an overflow is found, or the
        machine ends; on a fresh machine the first step is the start. Actions that always emit
        could keep this going for ever; `patience` bounds the steps. */
    method Dispatch(e: E, patience: nat) returns (r: DispatchResult)
      requires Valid()
      modifies this, timers
      ensures Valid() && SendAndDrain(env, old(Abs()), e, patience) == (Abs(), r)
    {
      hide Reference.Step, Reference.Send, Reference.TakeOverflow, Drain, TimersInChart, Resting;
      var sent := Send(e);
      if sent != Sent { return Refused; }
      var left := patience;
      ghost var goal := Drain(env, Abs(), patience);
      while queue != []
        invariant Valid() && Drain(env, Abs(), left) == goal
        decreases left
      {
        DrainRound(env, Abs(), left);
        if left == 0 { return Unfinished; }
        var full := DrainOne();
        if full { return Overflowed; }
        if terminated { return Drained; }
        left := left - 1;
      }
      DrainRound(env, Abs(), left);
      r := Drained;
    }
  }

  lemma DrainRound<C, E>(env: Env<C, E>, m: Config<C, E>, patience: nat)
    requires Ready(env.chart) && Resting(env, m)
    ensures |m.queue| == 0 ==> Drain(env, m, patience) == (m, Drained)
    ensures |m.queue| > 0 && patience == 0 ==> Drain(env, m, patience) == (m, Unfinished)
    ensures |m.queue| > 0 && patience > 0 ==>
      var (next, full) := Reference.TakeOverflow(Reference.Step(env, m, 0).0);
      Drain(env, m, patience) ==
        if full then (next, Overflowed)
        else if next.terminated then (next, Drained)
        else Drain(env, next, patience - 1)
  {
    hide Reference.Step;
  }

  lemma DrainCalls<C, E>(env: Env<C, E>, m: Config<C, E>, calls: seq<Input<E>>)
    requires Ready(env.chart) && Resting(env, m)
    ensures ApplyAll(env, m, calls + [Advance(0)] + [TakeFlag]) ==
      Reference.TakeOverflow(Reference.Step(env, ApplyAll(env, m, calls), 0).0).0
  {
    ApplyNext(env, m, calls, Advance(0));
    ApplyNext(env, m, calls + [Advance(0)], TakeFlag);
  }

  /** A send and `k` rounds of a step of no duration and taking the flag. */
  function Rounds<E>(e: E, k: nat): seq<Input<E>> {
    if k == 0 then [SendEvent(e)] else Rounds(e, k - 1) + [Advance(0)] + [TakeFlag]
  }

  ghost function After<C, E>(env: Env<C, E>, m: Config<C, E>, e: E, k: nat): Config<C, E>
    requires Ready(env.chart) && Resting(env, m)
  {
    ApplyAll(env, m, Rounds(e, k))
  }

  /** The step of round `k + 1` leaves the overflow flag set. */
  ghost predicate Floods<C, E>(env: Env<C, E>, m: Config<C, E>, e: E, k: nat)
    requires Ready(env.chart) && Resting(env, m)
  {
    Reference.Step(env, After(env, m, e, k), 0).0.overflow
  }

  /** After `k` rounds there is reason for another: events are queued, the machine has not ended,
      and the last step, if any, found room for all its emits. */
  ghost predicate GoesOn<C, E>(env: Env<C, E>, m: Config<C, E>, e: E, k: nat)
    requires Ready(env.chart) && Resting(env, m)
  {
    |After(env, m, e, k).queue| > 0 && !After(env, m, e, k).terminated && !(k > 0 && Floods(env, m, e, k - 1))
  }

  lemma NextRound<C, E>(env: Env<C, E>, m: Config<C, E>, e: E, k: nat)
    requires Ready(env.chart) && Resting(env, m)
    ensures var (next, full) := Reference.TakeOverflow(Reference.Step(env, After(env, m, e, k), 0).0);
      After(env, m, e, k + 1) == next && (full <==> Floods(env, m, e, k))
  {
    hide Reference.Step;
    DrainCalls(env, m, Rounds(e, k));
  }

  /** Draining takes rounds just as long as there is reason to and patience lasts. */
  lemma {:induction false} DrainIsRounds<C, E>(env: Env<C, E>, m: Config<C, E>, e: E, j: nat,
      patience: nat) returns (k: nat)
    requires Ready(env.chart) && Resting(env, m)
    requires !After(env, m, e, j).terminated && !(j > 0 && Floods(env, m, e, j - 1))
    ensures var r := Drain(env, After(env, m, e, j), patience);
      && j <= k <= j + patience && r.0 == After(env, m, e, k)
      && (forall i: nat :: j <= i < k ==> GoesOn(env, m, e, i))
      && IsVerdict(env, m, e, k, r.1)
      && (r.1.Unfinished? ==> k == j + patience)
    decreases patience
  {
    hide Reference.Step, ApplyAll;
    k := j;
    var at := After(env, m, e, j);
    if |at.queue| > 0 && patience > 0 {
      NextRound(env, m, e, j);
      k := j + 1;
      var (next, full) := Reference.TakeOverflow(Reference.Step(env, at, 0).0);
      if !full && !next.terminated { k := DrainIsRounds(env, m, e, j + 1, patience - 1); }
    }
  }

  /** What is reported after the last round: an overflow if its step left the flag set; otherwise
      success if no event is queued or the machine has ended; otherwise that patience ran out. */
  ghost predicate IsVerdict<C, E>(env: Env<C, E>, m: Config<C, E>, e: E, k: nat, r: DispatchResult)
    requires Ready(env.chart) && Resting(env, m)
  {
    var last := After(env, m, e, k);
    r == if k > 0 && Floods(env, m, e, k - 1) then Overflowed
      else if |last.queue| == 0 || last.terminated then Drained
      else Unfinished
  }

  /** `dispatch` refuses exactly when the machine has ended or its queue is full, and then does
      nothing. Otherwise it is a send and some rounds: each is taken because there was reason to,
      and the verdict says why there is no further one. */
  lemma DispatchIsRounds<C, E>(env: Env<C, E>, m: Config<C, E>, e: E, patience: nat) returns (k: nat)
    requires Ready(env.chart) && Resting(env, m)
    ensures SendAndDrain(env, m, e, patience).1.Refused? <==> m.terminated || |m.queue| >= env.queueCapacity
    ensures var r := SendAndDrain(env, m, e, patience);
      if r.1.Refused? then r.0 == m
      else
        && k <= patience && r.0 == After(env, m, e, k)
        && (forall i: nat :: i < k ==> GoesOn(env, m, e, i))
        && IsVerdict(env, m, e, k, r.1)
        && (r.1.Unfinished? ==> k == patience)
  {
    hide Drain, Reference.Step;
    k := 0;
    SendIsRound(env, m, e);
    if Reference.Send(env, m, e).1.Sent? { k := DrainIsRounds(env, m, e, 0, patience); }
    DrainNeverRefuses(env, Reference.Send(env, m, e).0, patience);
  }

  lemma SendIsRound<C, E>(env: Env<C, E>, m: Config<C, E>, e: E)
    requires Ready(env.chart) && Resting(env, m)
    ensures After(env, m, e, 0) == Reference.Send(env, m, e).0
  {
    ApplyNext(env, m, [], SendEvent(e));
  }

  lemma {:induction false} DrainNeverRefuses<C, E>(env: Env<C, E>, m: Config<C, E>, patience: nat)
    requires Ready(env.chart) && Resting(env, m)
    ensures !Drain(env, m, patience).1.Refused?
    decreases patience
  {
    hide Reference.Step;
    if |m.queue| > 0 && patience > 0 {
      var (next, full) := Reference.TakeOverflow(Reference.Step(env, m, 0).0);
      if !full && !next.terminated { DrainNeverRefuses(env, next, patience - 1); }
    }
  }

  /** On an accepted chart, running a group is running the declarations it was made from. */
  lemma TriggerByGroup<C, E>(env: Env<C, E>, m: Config<C, E>, s: nat, trigger: Trigger, ev: Option<E>, reason: Reason)
    requires Ready(env.chart) && Active(env, m) && s < |env.chart.states|
    ensures var g := GroupAt(env.chart, s, trigger);
      && (g.target.Some? ==> g.target.value < |env.chart.states|)
      && RunDeclared(env, m, s, Expand(g), ev, reason) == RunTrigger(env, m, s, trigger, ev, reason)
  {
    var hs := env.chart.states[s].handlers;
    assert OrderedAt(env.chart, s) && StateOk(env.chart, s);
    GroupingIsExact(hs);
    assert GroupedExactly(hs, trigger);
    DeclaredInChart(env.chart, hs, trigger);
    var g := GroupAt(env.chart, s, trigger);
    if g.target.Some? { assert Expand(g)[|g.actions|] == HandlerKind.Transition(g.target.value); }
  }

  lemma OwnedBelowAll(c: Chart)
    requires WellFormed(c)
    ensures OwnedInRange(c)
  {
    forall s: nat | s < |c.states| ensures OwnedBelow(c, s) {
      assert StateOk(c, s);
      var owned := c.states[s].ownedTimers;
      forall i | 0 <= i < |owned| ensures owned[i] < |c.durations| { assert owned[i] in owned; }
    }
  }

  lemma {:induction false} CancelledSubset(ts: seq<TimerEntry>, s: nat)
    ensures forall i :: 0 <= i < |Cancelled(ts, s)| ==> Cancelled(ts, s)[i] in ts
    ensures forall i :: 0 <= i < |Cancelled(ts, s)| ==> Cancelled(ts, s)[i].state != s
  {
    if ts != [] { CancelledSubset(ts[..|ts| - 1], s); }
  }
}
