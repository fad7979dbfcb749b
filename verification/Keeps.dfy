/** What every operation of the reference interpreter keeps: the journal grammar, queue traffic,
    timer ownership and timer clocks, proved together operation by operation. */
module Keeps {
  import opened Wrappers
  import opened Charts
  import opened Tree
  import opened Handlers
  import opened Validate
  import opened Timers
  import opened Dispatch
  import opened Trace
  import opened Reference
  import opened Observe
  import opened TimerFacts

  /** A moment inside a step: brackets now open, states whose timers may be live, the past journal and
      its reading, the timer whose clock is read, and what has since been received,
      fired, entered and exited. */
  datatype Watch = Watch(
    open: seq<Bracket>, phase: Phase, alive: seq<nat>,
    past: seq<TraceEvent>, start: Reading, state: nat, timer: nat,
    received: seq<nat>, fired: seq<(nat, nat)>, moves: seq<TraceEvent>)

  function Ids<C, E>(env: Env<C, E>, queue: seq<E>): (r: seq<nat>)
    ensures |r| == |queue| && forall i :: 0 <= i < |queue| ==> r[i] == EventId(env, queue[i])
  {
    seq(|queue|, i requires 0 <= i < |queue| => EventId(env, queue[i]))
  }

  /** Time left on a timer armed `x` nanoseconds ago. */
  function Left(c: Chart, t: nat, x: nat): nat {
    var d := FullTime(c, t);
    if d > x then d - x else 0
  }

  predicate RemainingIs(c: Chart, ts: seq<TimerEntry>, i: nat, s: nat, t: nat, x: Option<nat>)
    requires i < |ts|
  {
    IsKey(ts[i], s, t) ==> x.Some? && ts[i].remaining == Left(c, t, x.value)
  }

  /** The table's entry for `(s, t)` shows the time left since it was armed; if every chain fits
      the table, there is an entry whenever the timer is running. */
  predicate ClockOk(c: Chart, ts: seq<TimerEntry>, s: nat, t: nat, x: Option<nat>)
    requires IsTree(c)
  {
    && (forall i: nat :: i < |ts| ==> RemainingIs(c, ts, i, s, t, x))
    && (ChainsFit(c) && x.Some? ==> HasKey(ts, s, t))
  }

  /** The reading now. */
  function Now<C, E>(m: Config<C, E>, w: Watch): Reading
    requires w.past <= m.journal
  {
    Read(w.start, m.journal[|w.past|..], w.state, w.timer)
  }

  /** The queue holds what came in and was not taken out, in order, and the overflow flag tells
      whether an emit has failed. */
  ghost predicate TrafficOk<C, E>(env: Env<C, E>, m: Config<C, E>, r: Reading) {
    && m.cameIn == m.takenOut + m.queue
    && r.inflow == Ids(env, m.cameIn) && r.received == Ids(env, m.takenOut)
    && r.flag == Some(m.overflow)
    && |m.queue| <= env.queueCapacity
  }

  function ScanNow<C, E>(m: Config<C, E>, w: Watch): Scan {
    Scan(w.open, m.path, w.phase)
  }

  predicate SeenSoFar(r: Reading, w: Watch) {
    r.received == w.received && r.fired == w.fired && r.moves == w.moves
  }

  ghost predicate Inv<C, E>(env: Env<C, E>, m: Config<C, E>, w: Watch)
    requires IsTree(env.chart)
  {
    && w.past <= m.journal
    && Replay(env.chart, m.journal) == Some(ScanNow(m, w))
    && TrafficOk(env, m, Now(m, w))
    && SeenSoFar(Now(m, w), w)
    && TimersOk(env.chart, m.timers, w.alive)
    && ClockOk(env.chart, m.timers, w.state, w.timer, Now(m, w).clock)
  }

  lemma NowLog<C, E>(m: Config<C, E>, es: seq<TraceEvent>, w: Watch)
    requires w.past <= m.journal
    ensures Now(Log(m, es), w) == Read(Now(m, w), es, w.state, w.timer)
  {
    assert (m.journal + es)[|w.past|..] == m.journal[|w.past|..] + es;
    ReadAppend(w.start, m.journal[|w.past|..], es, w.state, w.timer);
  }

  lemma NowOne<C, E>(m: Config<C, E>, e: TraceEvent, w: Watch)
    requires w.past <= m.journal
    ensures Now(Log(m, [e]), w) == ReadEvent(Now(m, w), e, w.state, w.timer)
  {
    assert (m.journal + [e])[|w.past|..] == m.journal[|w.past|..] + [e];
    ReadOne(w.start, m.journal[|w.past|..], e, w.state, w.timer);
  }

  // ----- journal entries -----

  lemma LogQuiet<C, E>(env: Env<C, E>, m: Config<C, E>, e: TraceEvent, w: Watch,
      open: seq<Bracket>, phase: Phase)
    requires IsTree(env.chart) && Inv(env, m, w) && IsQuiet(e)
    requires ScanEvent(env.chart, ScanNow(m, w), e) == Some(Scan(open, m.path, phase))
    ensures Inv(env, Log(m, [e]), w.(open := open, phase := phase))
  {
    ReplayAppend(env.chart, m.journal, e, ScanNow(m, w));
    NowOne(m, e, w);
  }

  lemma LogQuietAll<C, E>(env: Env<C, E>, m: Config<C, E>, es: seq<TraceEvent>, w: Watch)
    requires IsTree(env.chart) && Inv(env, m, w)
    requires forall i :: 0 <= i < |es| ==> IsQuiet(es[i])
    requires forall i :: 0 <= i < |es| ==> ScanEvent(env.chart, ScanNow(m, w), es[i]) == Some(ScanNow(m, w))
    ensures Inv(env, Log(m, es), w)
  {
    ReplayKeeps(env.chart, m.journal, es, ScanNow(m, w));
    NowLog(m, es, w);
    QuietSays(Now(m, w), es, w.state, w.timer);
  }

  // ----- actions -----

  lemma {:induction false} RunActInv<C, E>(env: Env<C, E>, m: Config<C, E>, a: Act<C, E>, w: Watch)
    requires IsTree(env.chart) && Inv(env, m, w)
    ensures Inv(env, RunAct(env, m, a), w)
    decreases a
  {
    match a {
      case Done(_) =>
      case Emit(e, onOk, onFull) =>
        if !m.overflow && |m.queue| < env.queueCapacity {
          EmitOk(env, m, e, w);
          RunActInv(env, Log(Push(m, e), [EmitQueued(EventId(env, e))]), onOk, w);
        } else {
          EmitFull(env, m, e, w);
          RunActInv(env, Log(m.(overflow := true), [EmitFailed(EventId(env, e))]), onFull, w);
        }
    }
  }

  lemma EmitOk<C, E>(env: Env<C, E>, m: Config<C, E>, e: E, w: Watch)
    requires IsTree(env.chart) && Inv(env, m, w) && |m.queue| < env.queueCapacity && !m.overflow
    ensures Inv(env, Log(Push(m, e), [EmitQueued(EventId(env, e))]), w)
  {
    var ev := EmitQueued(EventId(env, e));
    ReplayAppend(env.chart, m.journal, ev, ScanNow(m, w));
    NowOne(m, ev, w);
    assert Ids(env, m.cameIn + [e]) == Ids(env, m.cameIn) + [EventId(env, e)];
    Assoc(m.takenOut, m.queue, [e]);
  }

  lemma EmitFull<C, E>(env: Env<C, E>, m: Config<C, E>, e: E, w: Watch)
    requires IsTree(env.chart) && Inv(env, m, w)
    ensures Inv(env, Log(m.(overflow := true), [EmitFailed(EventId(env, e))]), w)
  {
    var ev := EmitFailed(EventId(env, e));
    ReplayAppend(env.chart, m.journal, ev, ScanNow(m, w));
    NowOne(m, ev, w);
  }

  /** Where an action of this kind may be invoked. */
  predicate Placed(w: Watch, path: seq<nat>, s: nat, kind: ActionKind) {
    match kind
    case EntryAction => TopIs(w.open, InEnter(s))
    case ExitAction => TopIs(w.open, InExit(s))
    case HandlerAction => w.open == [] && s in path
  }

  lemma InvokeInv<C, E>(env: Env<C, E>, m: Config<C, E>, s: nat, a: nat, kind: ActionKind, ev: Option<E>, w: Watch)
    requires IsTree(env.chart) && Inv(env, m, w) && Placed(w, m.path, s, kind)
    ensures Inv(env, Invoke(env, m, s, a, kind, ev), w)
  {
    LogQuiet(env, m, ActionInvoked(s, a, kind), w, w.open, w.phase);
    RunActInv(env, Log(m, [ActionInvoked(s, a, kind)]), env.act(a, m.ctx, ev), w);
  }

  lemma {:induction false} InvokeAllInv<C, E>(env: Env<C, E>, m: Config<C, E>, s: nat, ids: seq<nat>,
      kind: ActionKind, ev: Option<E>, w: Watch)
    requires IsTree(env.chart) && Inv(env, m, w) && Placed(w, m.path, s, kind)
    ensures Inv(env, InvokeAll(env, m, s, ids, kind, ev), w)
    decreases |ids|
  {
    if ids != [] {
      InvokeInv(env, m, s, ids[0], kind, ev, w);
      InvokeAllInv(env, Invoke(env, m, s, ids[0], kind, ev), s, ids[1..], kind, ev, w);
    }
  }

  // ----- arming -----

  function PhaseAfter(phase: Phase, e: TraceEvent): Phase {
    if e.TimerFired? then Running else phase
  }

  lemma TimersChanged<C, E>(env: Env<C, E>, m: Config<C, E>, e: TraceEvent, ts: seq<TimerEntry>, w: Watch)
    requires IsTree(env.chart) && Inv(env, m, w) && (e.TimerArmed? || e.TimerFired?) && TimersOk(env.chart, ts, w.alive)
    requires ScanEvent(env.chart, ScanNow(m, w), e) == Some(ScanNow(m, w).(phase := PhaseAfter(w.phase, e)))
    requires ClockOk(env.chart, ts, w.state, w.timer, ClockEvent(Now(m, w).clock, e, w.state, w.timer))
    ensures Inv(env, Log(m.(timers := ts), [e]), w.(phase := PhaseAfter(w.phase, e),
      fired := if e.TimerFired? then w.fired + [(e.state, e.timer)] else w.fired))
  {
    ReplayAppend(env.chart, m.journal, e, ScanNow(m, w));
    NowOne(m, e, w);
  }

  /** Where `(s, t)` may be armed: a live state on a whole root path, owning `t`. */
  predicate MayArm(c: Chart, ts: seq<TimerEntry>, alive: seq<nat>, s: nat, t: nat)
    requires IsTree(c)
  {
    && alive != [] && Last(alive) < |c.states| && alive == RootPath(c, Last(alive))
    && s in alive && s < |c.states| && t in c.states[s].ownedTimers && !HasKey(ts, s, t)
  }

  lemma ArmedClock(c: Chart, ts: seq<TimerEntry>, alive: seq<nat>, s: nat, t: nat, ws: nat, wt: nat, x: Option<nat>)
    requires IsTree(c) && TimersOk(c, ts, alive) && MayArm(c, ts, alive, s, t)
    requires ClockOk(c, ts, ws, wt, x)
    ensures var r := AfterStart(ts, TimerCapacity(c), s, t, DurationOf(c, t));
      && TimersOk(c, r, alive)
      && ClockOk(c, r, ws, wt, if ws == s && wt == t then Some(0) else x)
      && forall t' :: t' != t && !HasKey(ts, s, t') ==> !HasKey(r, s, t')
  {
    var ns := DurationOf(c, t);
    var r := AfterStart(ts, TimerCapacity(c), s, t, ns);
    var x' := if ws == s && wt == t then Some(0) else x;
    StartFresh(c, ts, alive, s, t, ns);
    RoomForMissing(c, ts, alive, s, t);
    forall i: nat | i < |r| ensures RemainingIs(c, r, i, ws, wt, x') {
      if i < |ts| { assert RemainingIs(c, ts, i, ws, wt, x); }
    }
    if ChainsFit(c) && x'.Some? {
      assert FitsAt(c, Last(alive));
      assert IsKey(r[|ts|], s, t);
      if ws != s || wt != t {
        var i :| 0 <= i < |ts| && IsKey(ts[i], ws, wt);
        assert IsKey(r[i], ws, wt);
      }
    }
  }

  lemma ArmInv<C, E>(env: Env<C, E>, m: Config<C, E>, s: nat, t: nat, w: Watch)
    requires IsTree(env.chart) && Inv(env, m, w) && MayArm(env.chart, m.timers, w.alive, s, t)
    requires TopIs(w.open, InEnter(s)) || (w.open == [] && s in m.path)
    ensures Inv(env, Arm(env, m, s, t), w)
    ensures forall t' :: t' != t && !HasKey(m.timers, s, t') ==> !HasKey(Arm(env, m, s, t).timers, s, t')
  {
    var ns := DurationOf(env.chart, t);
    ArmedClock(env.chart, m.timers, w.alive, s, t, w.state, w.timer, Now(m, w).clock);
    TimersChanged(env, m, TimerArmed(s, t, AsU64(ns)), AfterStart(m.timers, TimerCapacity(env.chart), s, t, ns), w);
  }

  /** The timers still to be armed: owned by `s`, each once, none in the table yet. */
  predicate ToArm(c: Chart, ts: seq<TimerEntry>, alive: seq<nat>, s: nat, tids: seq<nat>)
    requires IsTree(c)
  {
    && (forall i :: 0 <= i < |tids| ==> MayArm(c, ts, alive, s, tids[i]))
    && (forall i, j :: 0 <= i < j < |tids| ==> tids[i] != tids[j])
  }

  lemma {:induction false} ArmAllInv<C, E>(env: Env<C, E>, m: Config<C, E>, s: nat, tids: seq<nat>, w: Watch)
    requires IsTree(env.chart) && Inv(env, m, w) && ToArm(env.chart, m.timers, w.alive, s, tids)
    requires TopIs(w.open, InEnter(s))
    ensures Inv(env, ArmAll(env, m, s, tids), w)
    decreases |tids|
  {
    if tids != [] {
      assert MayArm(env.chart, m.timers, w.alive, s, tids[0]);
      ArmInv(env, m, s, tids[0], w);
      var next := Arm(env, m, s, tids[0]);
      forall i | 0 <= i < |tids[1..]| ensures MayArm(env.chart, next.timers, w.alive, s, tids[1..][i]) {
        assert MayArm(env.chart, m.timers, w.alive, s, tids[i + 1]);
      }
      ArmAllInv(env, next, s, tids[1..], w);
    }
  }

  // ----- one state in, one state out -----

  lemma EnteredInv<C, E>(env: Env<C, E>, m: Config<C, E>, s: nat, w: Watch, open: seq<Bracket>)
    requires IsTree(env.chart) && Inv(env, m, w) && w.open == open + [InEnter(s)] && MayEnter(env.chart, m.path, s)
    ensures Inv(env, Log(m.(path := m.path + [s]), [Entered(s)]), w.(open := open, moves := w.moves + [Entered(s)]))
  {
    ReplayAppend(env.chart, m.journal, Entered(s), ScanNow(m, w));
    NowOne(m, Entered(s), w);
  }

  /** `s` comes right below the active path, which becomes a whole root path. */
  predicate Extends(c: Chart, path: seq<nat>, s: nat)
    requires IsTree(c)
  {
    s < |c.states| && path + [s] == RootPath(c, s)
  }

  lemma ExtendsMayEnter(c: Chart, path: seq<nat>, s: nat)
    requires IsTree(c) && Extends(c, path, s)
    ensures MayEnter(c, path, s) && s !in path
  {
    var p := RootPath(c, s);
    StepUp(c, s, |path|);
    if path != [] { assert p[|path| - 1] == Last(path); }
    forall i | 0 <= i < |path| ensures path[i] != s {
      RootPathDistinct(c, s, i, |path|);
      assert p[i] == path[i];
    }
  }

  lemma OwnToArm(c: Chart, ts: seq<TimerEntry>, path: seq<nat>, s: nat)
    requires WellFormed(c) && Extends(c, path, s) && s !in path && TimersOk(c, ts, path)
    ensures TimersOk(c, ts, path + [s])
    ensures ToArm(c, ts, path + [s], s, c.states[s].ownedTimers)
  {
    WidenAlive(c, ts, path, s);
    assert StateOk(c, s);
    assert (path + [s])[|path|] == s;
  }

  lemma EnterInv<C, E>(env: Env<C, E>, m: Config<C, E>, s: nat, w: Watch)
    requires WellFormed(env.chart) && Inv(env, m, w) && w.alive == m.path && Extends(env.chart, m.path, s)
    requires EnterPlaced(ScanNow(m, w))
    ensures Inv(env, Enter(env, m, s), w.(alive := m.path + [s], moves := w.moves + [Entered(s)]))
  {
    hide InvokeAll, ArmAll, Replay;
    var st := env.chart.states[s];
    var inside := w.(open := w.open + [InEnter(s)]);
    ExtendsMayEnter(env.chart, m.path, s);
    LogQuiet(env, m, EnterBegan(s), w, inside.open, w.phase);
    var began := Log(m, [EnterBegan(s)]);
    InvokeAllInv(env, began, s, st.entries, EntryAction, None, inside);
    var acted := InvokeAll(env, began, s, st.entries, EntryAction, None);
    OwnToArm(env.chart, acted.timers, m.path, s);
    var wide := inside.(alive := m.path + [s]);
    ArmAllInv(env, acted, s, st.ownedTimers, wide);
    var armed := ArmAll(env, acted, s, st.ownedTimers);
    LogQuietAll(env, armed, DuringsStarted(s, st.durings), wide);
    EnteredInv(env, Log(armed, DuringsStarted(s, st.durings)), s, wide, w.open);
  }

  lemma {:induction false} CancelEvents(r: Reading, s: nat, tids: seq<nat>, ws: nat, wt: nat)
    ensures Read(r, TimersCancelled(s, tids), ws, wt) == r.(clock := if ws == s && wt in tids then None else r.clock)
  {
    if tids != [] {
      var n := |tids| - 1;
      CancelEvents(r, s, tids[..n], ws, wt);
      assert TimersCancelled(s, tids)[..n] == TimersCancelled(s, tids[..n]);
      assert wt in tids <==> wt in tids[..n] || wt == tids[n];
    }
  }

  lemma CancelledClock(c: Chart, ts: seq<TimerEntry>, alive: seq<nat>, s: nat, ws: nat, wt: nat, x: Option<nat>)
    requires IsTree(c) && TimersOk(c, ts, alive) && s < |c.states| && ClockOk(c, ts, ws, wt, x)
    ensures ClockOk(c, Cancelled(ts, s), ws, wt, if ws == s && wt in c.states[s].ownedTimers then None else x)
  {
    var r := Cancelled(ts, s);
    var x' := if ws == s && wt in c.states[s].ownedTimers then None else x;
    forall i: nat | i < |r| ensures RemainingIs(c, r, i, ws, wt, x') {
      CancelledMembers(ts, s, r[i]);
      var k: nat :| k < |ts| && ts[k] == r[i];
      assert RemainingIs(c, ts, k, ws, wt, x);
    }
    if ChainsFit(c) && x'.Some? {
      var i: nat :| i < |ts| && IsKey(ts[i], ws, wt);
      assert EntryOwned(c, ts, alive, i);
      CancelledMembers(ts, s, ts[i]);
      var k: nat :| k < |r| && r[k] == ts[i];
      assert IsKey(r[k], ws, wt);
    }
  }

  lemma StopTimersInv<C, E>(env: Env<C, E>, m: Config<C, E>, w: Watch)
    requires IsTree(env.chart) && Inv(env, m, w) && w.alive == m.path && m.path != []
    requires Last(m.path) < |env.chart.states|
    requires TopIs(w.open, InExit(Last(m.path)))
    ensures var s := Last(m.path);
      var es := TimersCancelled(s, env.chart.states[s].ownedTimers);
      Inv(env, Log(m, es).(timers := Cancelled(m.timers, s)), w.(alive := Pop(m.path)))
  {
    var s := Last(m.path);
    var tids := env.chart.states[s].ownedTimers;
    var es := TimersCancelled(s, tids);
    ReplayKeeps(env.chart, m.journal, es, ScanNow(m, w));
    NowLog(m, es, w);
    CancelEvents(Now(m, w), s, tids, w.state, w.timer);
    CancelledOk(env.chart, m.timers, w.alive);
    CancelledClock(env.chart, m.timers, w.alive, s, w.state, w.timer, Now(m, w).clock);
  }

  lemma ExitedInv<C, E>(env: Env<C, E>, m: Config<C, E>, s: nat, w: Watch, open: seq<Bracket>)
    requires IsTree(env.chart) && Inv(env, m, w) && w.open == open + [InExit(s)] && m.path != [] && Last(m.path) == s
    ensures Inv(env, Log(m.(path := Pop(m.path)), [Exited(s)]), w.(open := open, moves := w.moves + [Exited(s)]))
  {
    ReplayAppend(env.chart, m.journal, Exited(s), ScanNow(m, w));
    NowOne(m, Exited(s), w);
  }

  lemma ExitInv<C, E>(env: Env<C, E>, m: Config<C, E>, w: Watch)
    requires IsTree(env.chart) && Inv(env, m, w) && w.alive == m.path && ExitPlaced(ScanNow(m, w))
    requires m.path != [] && Last(m.path) < |env.chart.states|
    ensures Inv(env, Exit(env, m), w.(alive := Pop(m.path), moves := w.moves + [Exited(Last(m.path))]))
  {
    var s := Last(m.path);
    var st := env.chart.states[s];
    var inside := w.(open := w.open + [InExit(s)]);
    LogQuiet(env, m, ExitBegan(s), w, inside.open, w.phase);
    var began := Log(m, [ExitBegan(s)]);
    LogQuietAll(env, began, DuringsCancelled(s, st.durings), inside);
    var quiet := Log(began, DuringsCancelled(s, st.durings));
    StopTimersInv(env, quiet, inside);
    var narrow := inside.(alive := Pop(m.path));
    var stopped := Log(quiet, TimersCancelled(s, st.ownedTimers)).(timers := Cancelled(m.timers, s));
    InvokeAllInv(env, stopped, s, st.exits, ExitAction, None, narrow);
    ExitedInv(env, InvokeAll(env, stopped, s, st.exits, ExitAction, None), s, narrow, w.open);
  }

  /** The exits of leaving all but the first `k` states of a path, innermost first. */
  function Exits(path: seq<nat>, k: nat): (r: seq<TraceEvent>)
    requires k <= |path|
    ensures |r| == |path| - k && forall i :: 0 <= i < |r| ==> r[i] == Exited(path[|path| - 1 - i])
  {
    seq(|path| - k, i requires 0 <= i < |path| - k => Exited(path[|path| - 1 - i]))
  }

  function Entries(ss: seq<nat>): (r: seq<TraceEvent>)
    ensures |r| == |ss| && forall i :: 0 <= i < |r| ==> r[i] == Entered(ss[i])
  {
    seq(|ss|, i requires 0 <= i < |ss| => Entered(ss[i]))
  }

  lemma Assoc<T>(a: seq<T>, b: seq<T>, c: seq<T>)
    ensures a + b + c == a + (b + c)
  {
  }

  lemma NoMoves<T>(a: seq<T>)
    ensures a + [] == a
  {
  }

  lemma ExitsStep(path: seq<nat>, k: nat)
    requires k < |path|
    ensures Exits(path, k) == [Exited(Last(path))] + Exits(Pop(path), k)
  {
  }

  lemma EntriesStep(ss: seq<nat>)
    requires ss != []
    ensures Entries(ss) == [Entered(ss[0])] + Entries(ss[1..])
  {
  }

  lemma {:induction false} ExitToInv<C, E>(env: Env<C, E>, m: Config<C, E>, k: nat, w: Watch)
    requires IsTree(env.chart) && Inv(env, m, w) && w.alive == m.path && ExitPlaced(ScanNow(m, w))
    requires k <= |m.path| && PathInChart(env.chart, m.path)
    ensures Inv(env, ExitTo(env, m, k), w.(alive := m.path[..k], moves := w.moves + Exits(m.path, k)))
    decreases |m.path|
  {
    if |m.path| == k {
      assert m.path[..k] == m.path;
      assert Exits(m.path, k) == [];
      NoMoves(w.moves);
    } else {
      var moved := w.moves + [Exited(Last(m.path))];
      ExitInv(env, m, w);
      assert Pop(m.path)[..k] == m.path[..k];
      ExitsStep(m.path, k);
      Assoc(w.moves, [Exited(Last(m.path))], Exits(Pop(m.path), k));
      ExitToInv(env, Exit(env, m), k, w.(alive := Pop(m.path), moves := moved));
    }
  }

  lemma NextExtends(c: Chart, path: seq<nat>, ss: seq<nat>, target: nat)
    requires IsTree(c) && target < |c.states| && ss != [] && path + ss == RootPath(c, target)
    ensures Extends(c, path, ss[0])
  {
    var p := RootPath(c, target);
    PrefixIsRootPath(c, target, |path|);
    assert p[..|path| + 1] == path + [ss[0]];
    assert p[|path|] == ss[0];
  }

  lemma EnterStep(path: seq<nat>, ss: seq<nat>, moves: seq<TraceEvent>)
    requires ss != []
    ensures path + [ss[0]] + ss[1..] == path + ss
    ensures moves + [Entered(ss[0])] + Entries(ss[1..]) == moves + Entries(ss)
  {
    assert [ss[0]] + ss[1..] == ss;
    Assoc(path, [ss[0]], ss[1..]);
    EntriesStep(ss);
    Assoc(moves, [Entered(ss[0])], Entries(ss[1..]));
  }

  lemma {:induction false} EnterAllInv<C, E>(env: Env<C, E>, m: Config<C, E>, ss: seq<nat>, target: nat, w: Watch)
    requires WellFormed(env.chart) && Inv(env, m, w) && w.alive == m.path && PathInChart(env.chart, ss)
    requires target < |env.chart.states| && m.path + ss == RootPath(env.chart, target)
    requires w.open != [] && Last(w.open).InTransition?
    ensures Inv(env, EnterAll(env, m, ss), w.(alive := m.path + ss, moves := w.moves + Entries(ss)))
    decreases |ss|
  {
    hide Enter, Replay;
    if ss == [] {
      assert Entries(ss) == [];
      NoMoves(m.path);
      NoMoves(w.moves);
    } else {
      var moved := w.moves + [Entered(ss[0])];
      NextExtends(env.chart, m.path, ss, target);
      EnterInv(env, m, ss[0], w);
      EnterStep(m.path, ss, w.moves);
      EnterAllInv(env, Enter(env, m, ss[0]), ss[1..], target, w.(alive := m.path + [ss[0]], moves := moved));
    }
  }

  // ----- transitions -----

  /** What one transition leaves and enters: everything below the kept part of the active path,
      innermost first, then the rest of the target's path, outermost first. */
  function Route(c: Chart, path: seq<nat>, target: nat): seq<TraceEvent>
    requires IsTree(c) && target < |c.states| && path != []
  {
    var k := Kept(c, path, target);
    Exits(path, k) + Entries(RootPath(c, target)[k..])
  }

  lemma TravelInv<C, E>(env: Env<C, E>, m: Config<C, E>, target: nat, w: Watch)
    requires WellFormed(env.chart) && Inv(env, m, w) && w.alive == m.path && Active(env, m)
    requires target < |env.chart.states|
    requires w.open != [] && Last(w.open).InTransition?
    ensures Inv(env, Travel(env, m, target),
      w.(alive := RootPath(env.chart, target), moves := w.moves + Route(env.chart, m.path, target)))
  {
    hide ExitTo, EnterAll, Replay;
    var to, k := RootPath(env.chart, target), Kept(env.chart, m.path, target);
    Rejoin(env.chart, m.path, target);
    ExitToInv(env, m, k, w);
    var moved := w.moves + Exits(m.path, k);
    EnterAllInv(env, ExitTo(env, m, k), to[k..], target, w.(alive := m.path[..k], moves := moved));
    Assoc(w.moves, Exits(m.path, k), Entries(to[k..]));
  }

  /** What following defaults from a freshly entered state leaves and enters: a matter of the
      chart alone, whatever the actions do. */
  ghost function DefaultMoves(c: Chart, s: nat): seq<TraceEvent>
    requires Ready(c) && s < |c.states|
    decreases RankOf(c)[s]
  {
    DefaultLowersRank(c, s);
    match Next(c, s)
    case None => []
    case Some(t) => Route(c, RootPath(c, s), t) + if EntersFrom(c, RootPath(c, s), t) then DefaultMoves(c, t) else []
  }

  /** What a fired transition leaves and enters, with the defaults it causes. */
  ghost function FireMoves(c: Chart, path: seq<nat>, target: nat): seq<TraceEvent>
    requires Ready(c) && target < |c.states| && path != []
  {
    Route(c, path, target) + if EntersFrom(c, path, target) then DefaultMoves(c, target) else []
  }

  ghost function HandlerMoves(c: Chart, path: seq<nat>, kinds: seq<HandlerKind>): seq<TraceEvent>
    requires Ready(c) && path != []
    requires forall i :: 0 <= i < |kinds| && kinds[i].Transition? ==> kinds[i].target < |c.states|
  {
    match LastTarget(kinds)
    case None => []
    case Some(target) => FireMoves(c, path, target)
  }

  function LastTarget(kinds: seq<HandlerKind>): (r: Option<nat>)
    ensures r.Some? ==> kinds != [] && kinds[|kinds| - 1] == HandlerKind.Transition(r.value)
  {
    if kinds == [] || kinds[|kinds| - 1].Action? then None else Some(kinds[|kinds| - 1].target)
  }

  lemma OpenInv<C, E>(env: Env<C, E>, m: Config<C, E>, target: nat, reason: Reason, w: Watch)
    requires IsTree(env.chart) && Inv(env, m, w) && m.path != []
    requires
      if reason.Internal? then DefaultPlaced(w.open, w.phase) && DeclaresDefault(env.chart, Last(m.path), target)
      else w.open == [] && w.phase.Running?
    ensures Inv(env, Log(m, [TransitionFired(Some(Last(m.path)), target, reason)]),
      w.(open := w.open + [InTransition(Last(m.path), target)]))
  {
    var from := Last(m.path);
    LogQuiet(env, m, TransitionFired(Some(from), target, reason), w, w.open + [InTransition(from, target)], w.phase);
  }

  lemma CloseInv<C, E>(env: Env<C, E>, m: Config<C, E>, from: nat, target: nat, w: Watch, open: seq<Bracket>)
    requires IsTree(env.chart) && Inv(env, m, w) && w.open == open + [InTransition(from, target)]
    ensures Inv(env, Log(m, [TransitionComplete(Some(from), target)]), w.(open := open))
  {
    LogQuiet(env, m, TransitionComplete(Some(from), target), w, open, w.phase);
  }

  /** A bracketed default: opened, travelled, closed, with the path of `target` active. */
  lemma DefaultFiredInv<C, E>(env: Env<C, E>, m: Config<C, E>, target: nat, w: Watch)
    requires WellFormed(env.chart) && Inv(env, m, w) && w.alive == m.path && Active(env, m)
    requires target < |env.chart.states|
    requires DefaultPlaced(w.open, w.phase) && Next(env.chart, Last(m.path)) == Some(target)
    ensures Inv(env, DefaultFired(env, m, target),
      w.(alive := RootPath(env.chart, target), moves := w.moves + Route(env.chart, m.path, target)))
  {
    var from := Last(m.path);
    var inside := w.(open := w.open + [InTransition(from, target)]);
    OpenInv(env, m, target, Reason.Internal, w);
    var fired := Log(m, [TransitionFired(Some(from), target, Reason.Internal)]);
    TravelInv(env, fired, target, inside);
    CloseInv(env, Travel(env, fired, target), from, target,
      inside.(alive := RootPath(env.chart, target), moves := w.moves + Route(env.chart, m.path, target)), w.open);
  }

  lemma {:induction false} FollowInv<C, E>(env: Env<C, E>, m: Config<C, E>, w: Watch)
    requires Ready(env.chart) && Inv(env, m, w) && w.alive == m.path && Active(env, m)
    requires DefaultPlaced(w.open, w.phase)
    ensures Inv(env, FollowDefaults(env, m),
      w.(alive := FollowDefaults(env, m).path, moves := w.moves + DefaultMoves(env.chart, Last(m.path))))
    decreases RankOf(env.chart)[Last(m.path)]
  {
    hide DefaultFired, DefaultMoves, Route;
    DefaultLowersRank(env.chart, Last(m.path));
    match Next(env.chart, Last(m.path)) {
      case None =>
        NoDefaultMoves(env.chart, Last(m.path));
        NoMoves(w.moves);
      case Some(target) =>
        DefaultFiredInv(env, m, target, w);
        FollowStep(env, m, target);
        var done := DefaultFired(env, m, target);
        if EntersFrom(env.chart, m.path, target) {
          FollowInv(env, done, w.(alive := done.path, moves := w.moves + Route(env.chart, m.path, target)));
        }
        FollowMoves(env.chart, m.path, target, w.moves);
    }
  }

  lemma FollowMoves(c: Chart, path: seq<nat>, target: nat, moves: seq<TraceEvent>)
    requires Ready(c) && path != [] && Last(path) < |c.states| && path == RootPath(c, Last(path))
    requires target < |c.states| && Next(c, Last(path)) == Some(target)
    ensures moves + DefaultMoves(c, Last(path)) ==
      moves + Route(c, path, target) + if EntersFrom(c, path, target) then DefaultMoves(c, target) else []
  {
    DefaultMovesStep(c, Last(path), target);
    Assoc(moves, Route(c, path, target), if EntersFrom(c, path, target) then DefaultMoves(c, target) else []);
  }

  lemma NoDefaultMoves(c: Chart, s: nat)
    requires Ready(c) && s < |c.states| && Next(c, s) == None
    ensures DefaultMoves(c, s) == []
  {
  }

  lemma DefaultMovesStep(c: Chart, s: nat, t: nat)
    requires Ready(c) && s < |c.states| && Next(c, s) == Some(t) && t < |c.states|
    ensures DefaultMoves(c, s) ==
      Route(c, RootPath(c, s), t) + if EntersFrom(c, RootPath(c, s), t) then DefaultMoves(c, t) else []
  {
  }

  lemma FireInv<C, E>(env: Env<C, E>, m: Config<C, E>, target: nat, reason: Reason, w: Watch)
    requires Ready(env.chart) && Inv(env, m, w) && w.alive == m.path && Active(env, m) && target < |env.chart.states|
    requires w.open == [] && w.phase.Running? && !reason.Internal?
    ensures var r := Fire(env, m, target, reason);
      Inv(env, r, w.(alive := r.path, moves := w.moves + FireMoves(env.chart, m.path, target)))
  {
    hide Travel, Route, FollowDefaults, DefaultMoves;
    var from := Last(m.path);
    var inside := w.(open := w.open + [InTransition(from, target)]);
    var fired := Log(m, [TransitionFired(Some(from), target, reason)]);
    OpenInv(env, m, target, reason, w);
    TravelInv(env, fired, target, inside);
    var there := Travel(env, fired, target);
    var route := Route(env.chart, m.path, target);
    var arrived := inside.(alive := there.path, moves := w.moves + route);
    var moves := w.moves + FireMoves(env.chart, m.path, target);
    if EntersFrom(env.chart, m.path, target) {
      FollowInv(env, there, arrived);
      Assoc(w.moves, route, DefaultMoves(env.chart, target));
    } else {
      NoMoves(route);
    }
    var rested := if EntersFrom(env.chart, m.path, target) then FollowDefaults(env, there) else there;
    CloseInv(env, rested, from, target, inside.(alive := rested.path, moves := moves), w.open);
  }

  // ----- triggers -----

  lemma SameEnd(kinds: seq<HandlerKind>)
    requires kinds != [] && kinds[0].Action? && TransitionLast(kinds)
    ensures TransitionLast(kinds[1..]) && LastTarget(kinds[1..]) == LastTarget(kinds)
  {
  }

  lemma {:induction false} RunDeclaredInv<C, E>(env: Env<C, E>, m: Config<C, E>, s: nat, kinds: seq<HandlerKind>,
      ev: Option<E>, reason: Reason, w: Watch)
    requires Ready(env.chart) && Inv(env, m, w) && w.alive == m.path && Active(env, m)
    requires forall i :: 0 <= i < |kinds| && kinds[i].Transition? ==> kinds[i].target < |env.chart.states|
    requires TransitionLast(kinds) && w.open == [] && w.phase.Running? && !reason.Internal? && s in m.path
    ensures var r := RunDeclared(env, m, s, kinds, ev, reason);
      Inv(env, r, w.(alive := r.path, moves := w.moves + HandlerMoves(env.chart, m.path, kinds)))
    decreases |kinds|
  {
    hide Fire, Invoke, FireMoves, Replay;
    if kinds == [] {
      NoMoves(w.moves);
    } else {
      match kinds[0] {
        case Action(a) =>
          InvokeInv(env, m, s, a, HandlerAction, ev, w);
          SameEnd(kinds);
          RunDeclaredInv(env, Invoke(env, m, s, a, HandlerAction, ev), s, kinds[1..], ev, reason, w);
        case Transition(t) =>
          assert kinds == [HandlerKind.Transition(t)];
          RunOne(env, m, s, t, ev, reason);
          FireInv(env, m, t, reason, w);
      }
    }
  }

  ghost function TriggerMoves(c: Chart, path: seq<nat>, s: nat, trigger: Trigger): seq<TraceEvent>
    requires Ready(c) && path != [] && s < |c.states|
  {
    assert StateOk(c, s);
    DeclaredInChart(c, c.states[s].handlers, trigger);
    HandlerMoves(c, path, Declared(c.states[s].handlers, trigger))
  }

  /** What an event makes the machine leave and enter: the transition of the innermost state
      that handles it, if any. */
  ghost function EventMoves(c: Chart, path: seq<nat>, id: nat): seq<TraceEvent>
    requires Ready(c) && path != []
  {
    var h := Bubble(c, path, Trigger.Event(id));
    if id == U16_MAX || h.None? then [] else TriggerMoves(c, path, h.value, Trigger.Event(id))
  }

  lemma RunTriggerInv<C, E>(env: Env<C, E>, m: Config<C, E>, s: nat, trigger: Trigger, ev: Option<E>, reason: Reason,
      w: Watch)
    requires Ready(env.chart) && Inv(env, m, w) && w.alive == m.path && Active(env, m)
    requires s < |env.chart.states| && s in m.path && w.open == [] && w.phase.Running? && !reason.Internal?
    ensures var r := RunTrigger(env, m, s, trigger, ev, reason);
      Inv(env, r, w.(alive := r.path, moves := w.moves + TriggerMoves(env.chart, m.path, s, trigger)))
  {
    var hs := env.chart.states[s].handlers;
    assert OrderedAt(env.chart, s) && StateOk(env.chart, s);
    LastAmongDeclared(hs, trigger);
    DeclaredInChart(env.chart, hs, trigger);
    RunDeclaredInv(env, m, s, Declared(hs, trigger), ev, reason, w);
  }

  lemma DeliverInv<C, E>(env: Env<C, E>, m: Config<C, E>, e: E, w: Watch)
    requires Ready(env.chart) && Inv(env, m, w) && w.alive == m.path && Active(env, m)
    requires w.open == [] && w.phase.Running?
    ensures var r := Deliver(env, m, e);
      Inv(env, r, w.(alive := r.path, moves := w.moves + EventMoves(env.chart, m.path, EventId(env, e))))
  {
    var id := EventId(env, e);
    if id == U16_MAX || Bubble(env.chart, m.path, Trigger.Event(id)).None? {
      LogQuiet(env, m, EventDropped(id), w, [], w.phase);
      NoMoves(w.moves);
    } else {
      var h := Bubble(env.chart, m.path, Trigger.Event(id)).value;
      LogQuiet(env, m, EventDelivered(h, id), w, [], w.phase);
      RunTriggerInv(env, Log(m, [EventDelivered(h, id)]), h, Trigger.Event(id), Some(e), Reason.Event(id), w);
    }
  }

  lemma FiredClock(c: Chart, ts: seq<TimerEntry>, alive: seq<nat>, i: nat, ws: nat, wt: nat, x: Option<nat>)
    requires IsTree(c) && TimersOk(c, ts, alive) && i < |ts| && ClockOk(c, ts, ws, wt, x)
    ensures ClockOk(c, SwapRemove(ts, i), ws, wt, if ts[i].state == ws && ts[i].trigger == wt then None else x)
  {
    var r := SwapRemove(ts, i);
    var x' := if ts[i].state == ws && ts[i].trigger == wt then None else x;
    forall k: nat | k < |r| ensures RemainingIs(c, r, k, ws, wt, x') {
      SwapRemoveMembers(ts, i, r[k]);
      var j: nat :| j < |ts| && ts[j] == r[k];
      assert RemainingIs(c, ts, j, ws, wt, x);
    }
    if ChainsFit(c) && x'.Some? {
      var j: nat :| j < |ts| && IsKey(ts[j], ws, wt);
      SwapRemoveMembers(ts, i, ts[j]);
      var k: nat :| k < |r| && r[k] == ts[j];
      assert IsKey(r[k], ws, wt);
    }
  }

  lemma TakenInv<C, E>(env: Env<C, E>, m: Config<C, E>, i: nat, w: Watch)
    requires WellFormed(env.chart) && Inv(env, m, w) && w.alive == m.path && w.open == [] && i < |m.timers|
    requires IsStarted(w.phase)
    ensures m.timers[i].state in m.path
    ensures Inv(env, Log(m.(timers := SwapRemove(m.timers, i)), [TimerFired(m.timers[i].state, m.timers[i].trigger)]),
      w.(phase := Running, fired := w.fired + [(m.timers[i].state, m.timers[i].trigger)]))
  {
    var s, t := m.timers[i].state, m.timers[i].trigger;
    var e := TimerFired(s, t);
    assert EntryOwned(env.chart, m.timers, w.alive, i);
    SwapRemoveOk(env.chart, m.timers, w.alive, i);
    FiredClock(env.chart, m.timers, w.alive, i, w.state, w.timer, Now(m, w).clock);
    TimersChanged(env, m, e, SwapRemove(m.timers, i), w);
  }

  lemma FireTimerInv<C, E>(env: Env<C, E>, m: Config<C, E>, i: nat, w: Watch)
    requires Ready(env.chart) && Inv(env, m, w) && w.alive == m.path && Active(env, m) && w.open == [] && i < |m.timers|
    requires IsStarted(w.phase)
    ensures var r, s, t := FireTimer(env, m, i), m.timers[i].state, m.timers[i].trigger;
      && s < |env.chart.states|
      && Inv(env, r, w.(phase := Running, alive := r.path, fired := w.fired + [(s, t)],
           moves := w.moves + TriggerMoves(env.chart, m.path, s, Duration(t))))
  {
    hide Replay, RunTrigger, TriggerMoves, ClockOk, RootPath;
    var s, t := m.timers[i].state, m.timers[i].trigger;
    assert EntryOwned(env.chart, m.timers, w.alive, i);
    SwapRemoveOk(env.chart, m.timers, w.alive, i);
    TakenInv(env, m, i, w);
    var fired := Log(m.(timers := SwapRemove(m.timers, i)), [TimerFired(s, t)]);
    var w' := w.(phase := Running, fired := w.fired + [(s, t)]);
    if Repeats(env.chart, t) { ArmInv(env, fired, s, t, w'); }
    var ready := if Repeats(env.chart, t) then Arm(env, fired, s, t) else fired;
    RunTriggerInv(env, ready, s, Duration(t), None, Reason.Timer(s, t), w');
  }
}
