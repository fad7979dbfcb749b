/** Whole runs: what the log of any sequence of calls says about the machine's state. */
module Runs {
  import opened Wrappers
  import opened Charts
  import opened Tree
  import opened Timers
  import opened Trace
  import opened Reference
  import opened Observe
  import opened TimerFacts
  import opened Keeps

  /** A run's log: accepted sends, time passing, the flag being taken, and the journal. */
  datatype Item = Queued(event: nat) | Ticked(ns: nat) | FlagTaken | Seen(e: TraceEvent)

  function ReadItem(r: Reading, i: Item, s: nat, t: nat): Reading {
    match i
    case Queued(id) => r.(inflow := r.inflow + [id])
    case Ticked(ns) => r.(clock := if r.clock.Some? then Some(r.clock.value + AsU64(ns)) else None)
    case FlagTaken => r.(flag := if r.flag.Some? then Some(false) else None)
    case Seen(e) => ReadEvent(r, e, s, t)
  }

  function ReadLog(log: seq<Item>, s: nat, t: nat): Reading {
    if log == [] then NOTHING else ReadItem(ReadLog(log[..|log| - 1], s, t), log[|log| - 1], s, t)
  }

  function SeenAll(es: seq<TraceEvent>): seq<Item> {
    seq(|es|, i requires 0 <= i < |es| => Seen(es[i]))
  }

  lemma LogItem(log: seq<Item>, i: Item, s: nat, t: nat)
    ensures ReadLog(log + [i], s, t) == ReadItem(ReadLog(log, s, t), i, s, t)
  {
    assert (log + [i])[..|log|] == log;
  }

  lemma {:induction false} LogSeen(log: seq<Item>, es: seq<TraceEvent>, s: nat, t: nat)
    ensures ReadLog(log + SeenAll(es), s, t) == Read(ReadLog(log, s, t), es, s, t)
  {
    if es == [] {
      assert log + SeenAll(es) == log;
    } else {
      var n := |es| - 1;
      LogSeen(log, es[..n], s, t);
      assert log + SeenAll(es) == (log + SeenAll(es[..n])) + [Seen(es[n])];
      LogItem(log + SeenAll(es[..n]), Seen(es[n]), s, t);
    }
  }

  // ----- at rest -----

  function PhaseOf(c: Chart, journal: seq<TraceEvent>): Phase {
    match Replay(c, journal)
    case None => Fresh
    case Some(st) => st.phase
  }

  predicate PhaseFits<C, E>(m: Config<C, E>, phase: Phase) {
    if m.terminated then phase.Ended? else if m.path == [] then phase.Fresh? else IsStarted(phase)
  }

  /** Between calls, the reading of everything so far describes the state exactly. */
  ghost predicate AtRest<C, E>(env: Env<C, E>, m: Config<C, E>, s: nat, t: nat, r: Reading)
    requires IsTree(env.chart)
  {
    && Resting(env, m)
    && Replay(env.chart, m.journal) == Some(Scan([], m.path, PhaseOf(env.chart, m.journal)))
    && PhaseFits(m, PhaseOf(env.chart, m.journal))
    && r.flag == Some(m.overflow) && |m.queue| <= env.queueCapacity
    && r.inflow == Ids(env, m.cameIn) && r.received == Ids(env, m.takenOut)
    && (if m.terminated then m.takenOut <= m.cameIn && m.queue == [] else m.cameIn == m.takenOut + m.queue)
    && TimersOk(env.chart, m.timers, m.path)
    && ClockOk(env.chart, m.timers, s, t, r.clock)
  }

  function RestWatch<C, E>(env: Env<C, E>, m: Config<C, E>, s: nat, t: nat, r: Reading): Watch {
    Watch([], PhaseOf(env.chart, m.journal), m.path, m.journal, r, s, t, r.received, r.fired, r.moves)
  }

  lemma RestInv<C, E>(env: Env<C, E>, m: Config<C, E>, s: nat, t: nat, r: Reading)
    requires IsTree(env.chart) && AtRest(env, m, s, t, r) && !m.terminated
    ensures Inv(env, m, RestWatch(env, m, s, t, r))
  {
    assert m.journal[|m.journal|..] == [];
  }

  /** The journal entries a call added. */
  function Added<C, E>(m: Config<C, E>, r: Config<C, E>): seq<TraceEvent> {
    if |m.journal| <= |r.journal| then r.journal[|m.journal|..] else []
  }

  lemma TickClock(c: Chart, ts: seq<TimerEntry>, s: nat, t: nat, r: Reading, d: nat)
    requires IsTree(c) && ClockOk(c, ts, s, t, r.clock)
    ensures ClockOk(c, Decremented(ts, d), s, t, ReadItem(r, Ticked(d), s, t).clock)
  {
    var x, ts' := ReadItem(r, Ticked(d), s, t).clock, Decremented(ts, d);
    forall i: nat | i < |ts'| ensures RemainingIs(c, ts', i, s, t, x) { assert RemainingIs(c, ts, i, s, t, r.clock); }
    if ChainsFit(c) && x.Some? {
      var i :| 0 <= i < |ts| && IsKey(ts[i], s, t);
      assert IsKey(ts'[i], s, t);
    }
  }

  lemma TickRest<C, E>(env: Env<C, E>, m: Config<C, E>, s: nat, t: nat, r: Reading, d: nat)
    requires IsTree(env.chart) && AtRest(env, m, s, t, r)
    ensures AtRest(env, m.(timers := Decremented(m.timers, d)), s, t, ReadItem(r, Ticked(d), s, t))
    ensures m.path == [] ==> m.timers == [] && Decremented(m.timers, d) == m.timers
  {
    TickClock(env.chart, m.timers, s, t, r, d);
    DecrementedOk(env.chart, m.timers, m.path, d);
    if m.path == [] { NoOwnersNoTimers(env.chart, m.timers); }
  }

  lemma OwnerAlive(c: Chart, ts: seq<TimerEntry>, alive: seq<nat>, i: nat)
    requires TimersOk(c, ts, alive) && i < |ts|
    ensures ts[i].state in alive
  {
    assert EntryOwned(c, ts, alive, i);
  }

  lemma NoOwnersNoTimers(c: Chart, ts: seq<TimerEntry>)
    requires TimersOk(c, ts, [])
    ensures ts == []
  {
    if ts != [] { OwnerAlive(c, ts, [], 0); }
  }

  // ----- one step -----

  /** The moves a step makes are a matter of the chart, the active path and the trigger. */
  ghost function StepMoves<C, E>(env: Env<C, E>, m: Config<C, E>, d: nat): seq<TraceEvent>
    requires Ready(env.chart) && Resting(env, m)
  {
    if m.terminated then []
    else if m.path == [] then [Entered(0)] + DefaultMoves(env.chart, 0)
    else
      var ts := Decremented(m.timers, d);
      match NextExpired(ts, Depths(env.chart))
      case Some(i) =>
        if ts[i].state < |env.chart.states| then
          TriggerMoves(env.chart, m.path, ts[i].state, Duration(ts[i].trigger))
        else []
      case None =>
        if m.queue == [] then []
        else if env.chart.terminate == Some(env.variant(m.queue[0])) then Exits(m.path, 0)
        else EventMoves(env.chart, m.path, EventId(env, m.queue[0]))
  }

  ghost function StepFires<C, E>(env: Env<C, E>, m: Config<C, E>, d: nat): seq<(nat, nat)> {
    if m.path == [] then []
    else
      var ts := Decremented(m.timers, d);
      match NextExpired(ts, Depths(env.chart))
      case Some(i) => [(ts[i].state, ts[i].trigger)]
      case None => []
  }

  ghost function StepTakes<C, E>(env: Env<C, E>, m: Config<C, E>, d: nat): seq<nat> {
    if m.path == [] || m.queue == [] || StepFires(env, m, d) != [] then [] else [EventId(env, m.queue[0])]
  }

  /** What `r` should read after a step. */
  ghost predicate StepReads<C, E>(env: Env<C, E>, m: Config<C, E>, d: nat, r0: Reading, r: Reading)
    requires Ready(env.chart) && Resting(env, m)
  {
    && r.received == r0.received + StepTakes(env, m, d)
    && r.fired == r0.fired + StepFires(env, m, d)
    && r.moves == r0.moves + StepMoves(env, m, d)
  }

  /** Leaves the watch: the operation is over, all brackets closed. */
  lemma LeaveInv<C, E>(env: Env<C, E>, m0: Config<C, E>, m: Config<C, E>, w: Watch)
    requires IsTree(env.chart) && Inv(env, m, w) && w.open == [] && w.alive == m.path && Resting(env, m)
    requires !m.terminated
    requires w.past == m0.journal && PhaseFits(m, w.phase)
    ensures AtRest(env, m, w.state, w.timer, Read(w.start, Added(m0, m), w.state, w.timer))
    ensures SeenSoFar(Read(w.start, Added(m0, m), w.state, w.timer), w)
    ensures m0.journal <= m.journal
  {
  }

  /** The start: the root is entered and its defaults are followed. */
  lemma StartStep<C, E>(env: Env<C, E>, m: Config<C, E>, s: nat, t: nat, r: Reading)
    requires Ready(env.chart) && AtRest(env, m, s, t, r) && !m.terminated && m.path == []
    ensures var m' := Start(env, m);
      var r' := Read(r, Added(m, m'), s, t);
      && m.journal <= m'.journal && AtRest(env, m', s, t, r')
      && r'.received == r.received && r'.fired == r.fired
      && r'.moves == r.moves + ([Entered(0)] + DefaultMoves(env.chart, 0))
  {
    var w := RestWatch(env, m, s, t, r);
    RestInv(env, m, s, t, r);
    LogQuiet(env, m, Started(env.chart.hash), w, [], Starting);
    var started := w.(phase := Starting);
    var began := Log(m, [Started(env.chart.hash)]);
    assert [] + [0] == RootPath(env.chart, 0);
    EnterInv(env, began, 0, started);
    var entered := Enter(env, began, 0);
    FollowInv(env, entered, started.(alive := [0], moves := w.moves + [Entered(0)]));
    Assoc(w.moves, [Entered(0)], DefaultMoves(env.chart, 0));
    var m' := FollowDefaults(env, entered);
    LeaveInv(env, m, m', started.(alive := m'.path, moves := w.moves + ([Entered(0)] + DefaultMoves(env.chart, 0))));
  }

  lemma TimerStep<C, E>(env: Env<C, E>, m: Config<C, E>, i: nat, s: nat, t: nat, r: Reading)
    requires Ready(env.chart) && AtRest(env, m, s, t, r) && !m.terminated && m.path != [] && i < |m.timers|
    ensures var m', e := FireTimer(env, m, i), m.timers[i];
      var r' := Read(r, Added(m, m'), s, t);
      && e.state < |env.chart.states|
      && m.journal <= m'.journal && AtRest(env, m', s, t, r')
      && r'.received == r.received && r'.fired == r.fired + [(e.state, e.trigger)]
      && r'.moves == r.moves + TriggerMoves(env.chart, m.path, e.state, Duration(e.trigger))
  {
    RestInv(env, m, s, t, r);
    var w := RestWatch(env, m, s, t, r);
    FireTimerInv(env, m, i, w);
    var m', e := FireTimer(env, m, i), m.timers[i];
    LeaveInv(env, m, m', w.(phase := Running, alive := m'.path, fired := w.fired + [(e.state, e.trigger)],
      moves := w.moves + TriggerMoves(env.chart, m.path, e.state, Duration(e.trigger))));
  }

  lemma TakeInv<C, E>(env: Env<C, E>, m: Config<C, E>, w: Watch)
    requires IsTree(env.chart) && Inv(env, m, w) && m.queue != [] && w.open == [] && m.path != [] && IsStarted(w.phase)
    ensures var id := EventId(env, m.queue[0]);
      Inv(env, Log(Take(m), [EventReceived(id)]), w.(phase := Running, received := w.received + [id]))
  {
    var id := EventId(env, m.queue[0]);
    ReplayAppend(env.chart, m.journal, EventReceived(id), ScanNow(m, w));
    NowOne(m, EventReceived(id), w);
    assert Ids(env, m.takenOut + [m.queue[0]]) == Ids(env, m.takenOut) + [id];
    assert [m.queue[0]] + m.queue[1..] == m.queue;
    Assoc(m.takenOut, [m.queue[0]], m.queue[1..]);
  }

  lemma EventStep<C, E>(env: Env<C, E>, m: Config<C, E>, s: nat, t: nat, r: Reading)
    requires Ready(env.chart) && AtRest(env, m, s, t, r) && !m.terminated && m.path != [] && m.queue != []
    ensures var e, id := m.queue[0], EventId(env, m.queue[0]);
      var m' := Deliver(env, Log(Take(m), [EventReceived(id)]), e);
      var r' := Read(r, Added(m, m'), s, t);
      && m.journal <= m'.journal && AtRest(env, m', s, t, r')
      && r'.received == r.received + [id] && r'.fired == r.fired
      && r'.moves == r.moves + EventMoves(env.chart, m.path, id)
  {
    var e, id := m.queue[0], EventId(env, m.queue[0]);
    RestInv(env, m, s, t, r);
    var w := RestWatch(env, m, s, t, r);
    TakeInv(env, m, w);
    var taken := Log(Take(m), [EventReceived(id)]);
    var w' := w.(phase := Running, received := w.received + [id]);
    DeliverInv(env, taken, e, w');
    var m' := Deliver(env, taken, e);
    LeaveInv(env, m, m', w'.(alive := m'.path, moves := w.moves + EventMoves(env.chart, m.path, id)));
  }

  /** Receiving the terminate event exits the whole active path, innermost first, drops what is
      queued, and leaves no timer behind. */
  lemma TerminateStep<C, E>(env: Env<C, E>, m: Config<C, E>, s: nat, t: nat, r: Reading)
    requires Ready(env.chart) && AtRest(env, m, s, t, r) && !m.terminated && m.path != [] && m.queue != []
    ensures var id := EventId(env, m.queue[0]);
      var m' := Shutdown(env, Log(Log(Take(m), [EventReceived(id)]), [TerminateRequested(id)]));
      var r' := Read(r, Added(m, m'), s, t);
      && m.journal <= m'.journal && AtRest(env, m', s, t, r')
      && m'.timers == [] && m'.path == [] && m'.queue == [] && m'.terminated
      && r'.received == r.received + [id] && r'.fired == r.fired && r'.moves == r.moves + Exits(m.path, 0)
  {
    var id := EventId(env, m.queue[0]);
    RestInv(env, m, s, t, r);
    var w := RestWatch(env, m, s, t, r);
    TakeInv(env, m, w);
    var taken := Log(Take(m), [EventReceived(id)]);
    var w' := w.(phase := Running, received := w.received + [id]);
    LogQuiet(env, taken, TerminateRequested(id), w', [], Ending);
    var asked := Log(taken, [TerminateRequested(id)]);
    ExitToInv(env, asked, 0, w'.(phase := Ending));
    var gone := ExitTo(env, asked, 0);
    var w'' := w'.(phase := Ending, alive := [], moves := w.moves + Exits(m.path, 0));
    NoOwnersNoTimers(env.chart, gone.timers);
    EndInv(env, m, gone, w'');
  }

  lemma EndInv<C, E>(env: Env<C, E>, m0: Config<C, E>, m: Config<C, E>, w: Watch)
    requires IsTree(env.chart) && Inv(env, m, w) && w.open == [] && w.alive == [] && m.path == []
    requires w.past == m0.journal && w.phase.Ending?
    ensures var m' := Log(m.(queue := [], terminated := true), [Terminated]);
      var r' := Read(w.start, Added(m0, m'), w.state, w.timer);
      AtRest(env, m', w.state, w.timer, r') && SeenSoFar(r', w) && m0.journal <= m'.journal
  {
    ReplayAppend(env.chart, m.journal, Terminated, Scan([], [], Ending));
    NowOne(m, Terminated, w);
  }

  /** A step leaves the machine at rest, its reading continued by what the step should add. */
  ghost predicate StepOk<C, E>(env: Env<C, E>, m: Config<C, E>, d: nat, s: nat, t: nat, r: Reading)
    requires Ready(env.chart) && Resting(env, m)
  {
    var m' := Step(env, m, d).0;
    && StepLands(env, m, m', d, s, t, r)
    && StepReads(env, m, d, r, Read(ReadItem(r, Ticked(d), s, t), Added(m, m'), s, t))
  }

  ghost predicate StepLands<C, E>(env: Env<C, E>, m: Config<C, E>, m': Config<C, E>, d: nat, s: nat, t: nat, r: Reading)
    requires IsTree(env.chart)
  {
    && m'.journal == m.journal + Added(m, m')
    && AtRest(env, m', s, t, Read(ReadItem(r, Ticked(d), s, t), Added(m, m'), s, t))
  }

  lemma TimerCase<C, E>(env: Env<C, E>, m: Config<C, E>, d: nat, s: nat, t: nat, r: Reading)
    requires Ready(env.chart) && AtRest(env, m, s, t, r) && !m.terminated && m.path != []
    requires NextExpired(Decremented(m.timers, d), Depths(env.chart)).Some?
    ensures StepOk(env, m, d, s, t, r)
  {
    hide FireTimer, TriggerMoves, Decremented;
    TickRest(env, m, s, t, r, d);
    var now := m.(timers := Decremented(m.timers, d));
    var i := NextExpired(now.timers, Depths(env.chart)).value;
    TimerStep(env, now, i, s, t, ReadItem(r, Ticked(d), s, t));
    NoMoves(r.received);
  }

  lemma TerminateCase<C, E>(env: Env<C, E>, m: Config<C, E>, d: nat, s: nat, t: nat, r: Reading)
    requires Ready(env.chart) && AtRest(env, m, s, t, r) && !m.terminated && m.path != [] && m.queue != []
    requires NextExpired(Decremented(m.timers, d), Depths(env.chart)).None?
    requires env.chart.terminate == Some(env.variant(m.queue[0]))
    ensures StepOk(env, m, d, s, t, r)
    ensures var m' := Step(env, m, d).0; m'.timers == [] && m'.path == [] && m'.queue == [] && m'.terminated
  {
    hide Shutdown;
    TickRest(env, m, s, t, r, d);
    TerminateStep(env, m.(timers := Decremented(m.timers, d)), s, t, ReadItem(r, Ticked(d), s, t));
    NoMoves(r.fired);
  }

  lemma EventCase<C, E>(env: Env<C, E>, m: Config<C, E>, d: nat, s: nat, t: nat, r: Reading)
    requires Ready(env.chart) && AtRest(env, m, s, t, r) && !m.terminated && m.path != [] && m.queue != []
    requires NextExpired(Decremented(m.timers, d), Depths(env.chart)).None?
    requires env.chart.terminate != Some(env.variant(m.queue[0]))
    ensures StepOk(env, m, d, s, t, r)
  {
    hide Deliver, EventMoves;
    TickRest(env, m, s, t, r, d);
    EventStep(env, m.(timers := Decremented(m.timers, d)), s, t, ReadItem(r, Ticked(d), s, t));
    NoMoves(r.fired);
  }

  lemma StartCase<C, E>(env: Env<C, E>, m: Config<C, E>, d: nat, s: nat, t: nat, r: Reading)
    requires Ready(env.chart) && AtRest(env, m, s, t, r) && !m.terminated && m.path == []
    ensures StepOk(env, m, d, s, t, r)
  {
    hide Start, DefaultMoves, Decremented, AtRest;
    TickRest(env, m, s, t, r, d);
    StartStep(env, m, s, t, ReadItem(r, Ticked(d), s, t));
    NoMoves(r.received);
    NoMoves(r.fired);
  }

  lemma IdleCase<C, E>(env: Env<C, E>, m: Config<C, E>, d: nat, s: nat, t: nat, r: Reading)
    requires Ready(env.chart) && AtRest(env, m, s, t, r)
    requires
      || m.terminated
      || (m.path != [] && m.queue == [] && NextExpired(Decremented(m.timers, d), Depths(env.chart)).None?)
    ensures StepOk(env, m, d, s, t, r)
  {
    TickRest(env, m, s, t, r, d);
    NothingRead(env, m, d, r);
  }

  lemma StepRest<C, E>(env: Env<C, E>, m: Config<C, E>, d: nat, s: nat, t: nat, r: Reading)
    requires Ready(env.chart) && AtRest(env, m, s, t, r)
    ensures StepOk(env, m, d, s, t, r)
  {
    if m.terminated {
      IdleCase(env, m, d, s, t, r);
    } else if m.path == [] {
      StartCase(env, m, d, s, t, r);
    } else if NextExpired(Decremented(m.timers, d), Depths(env.chart)).Some? {
      TimerCase(env, m, d, s, t, r);
    } else if m.queue == [] {
      IdleCase(env, m, d, s, t, r);
    } else if env.chart.terminate == Some(env.variant(m.queue[0])) {
      TerminateCase(env, m, d, s, t, r);
    } else {
      EventCase(env, m, d, s, t, r);
    }
  }

  lemma NothingRead<C, E>(env: Env<C, E>, m: Config<C, E>, d: nat, r: Reading)
    requires Ready(env.chart) && Resting(env, m)
    requires m.terminated ==> m.path == []
    requires
      || m.terminated
      || (m.path != [] && m.queue == [] && NextExpired(Decremented(m.timers, d), Depths(env.chart)).None?)
    ensures r.received + StepTakes(env, m, d) == r.received
    ensures r.fired + StepFires(env, m, d) == r.fired
    ensures r.moves + StepMoves(env, m, d) == r.moves
    ensures Added(m, Step(env, m, d).0) == []
  {
  }
}
