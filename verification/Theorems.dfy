/** The main results about every run of every accepted chart. */
module Theorems {
  import opened Wrappers
  import opened Charts
  import opened Handlers
  import opened Timers
  import opened Dispatch
  import opened Trace
  import opened Reference
  import opened Observe
  import opened TimerFacts
  import opened Keeps
  import opened Runs

  /** Everything that happened in a run, in order. */
  function RunLog<C, E>(env: Env<C, E>, ctx: C, inputs: seq<Input<E>>): seq<Item>
    requires Ready(env.chart)
    decreases |inputs|
  {
    if inputs == [] then []
    else
      var before := inputs[..|inputs| - 1];
      RunLog(env, ctx, before) + Happened(env, Run(env, ctx, before), inputs[|inputs| - 1])
  }

  function Happened<C, E>(env: Env<C, E>, m: Config<C, E>, input: Input<E>): seq<Item>
    requires Ready(env.chart) && Resting(env, m)
  {
    match input
    case SendEvent(e) => if Send(env, m, e).1.Sent? then [Queued(EventId(env, e))] else []
    case Advance(d) => [Ticked(d)] + SeenAll(Added(m, Step(env, m, d).0))
    case TakeFlag => [FlagTaken]
  }

  /** The journal entries of a log. */
  function JournalOf(log: seq<Item>): seq<TraceEvent> {
    if log == [] then []
    else JournalOf(log[..|log| - 1]) + match log[|log| - 1] case Seen(e) => [e] case _ => []
  }

  lemma {:induction false} JournalOfSeen(log: seq<Item>, es: seq<TraceEvent>)
    ensures JournalOf(log + SeenAll(es)) == JournalOf(log) + es
  {
    hide JournalOf;
    if es == [] {
      assert log + SeenAll(es) == log;
      NoMoves(JournalOf(log));
    } else {
      var n := |es| - 1;
      JournalOfSeen(log, es[..n]);
      var front := log + SeenAll(es[..n]);
      assert log + SeenAll(es) == front + [Seen(es[n])];
      JournalOfOne(front, es[n]);
      assert es == es[..n] + [es[n]];
      Assoc(JournalOf(log), es[..n], [es[n]]);
    }
  }

  lemma JournalOfOne(log: seq<Item>, e: TraceEvent)
    ensures JournalOf(log + [Seen(e)]) == JournalOf(log) + [e]
  {
    assert (log + [Seen(e)])[..|log|] == log;
  }

  lemma HappenedRest<C, E>(env: Env<C, E>, m: Config<C, E>, input: Input<E>, log: seq<Item>, s: nat, t: nat)
    requires Ready(env.chart) && AtRest(env, m, s, t, ReadLog(log, s, t)) && JournalOf(log) == m.journal
    ensures var log' := log + Happened(env, m, input);
      AtRest(env, Apply(env, m, input), s, t, ReadLog(log', s, t)) && JournalOf(log') == Apply(env, m, input).journal
  {
    hide AtRest, ReadLog, JournalOf, Step, Send;
    match input {
      case SendEvent(e) => SendRest(env, m, e, log, s, t);
      case Advance(d) => AdvanceRest(env, m, d, log, s, t);
      case TakeFlag => TakeRest(env, m, log, s, t);
    }
  }

  lemma TakeRest<C, E>(env: Env<C, E>, m: Config<C, E>, log: seq<Item>, s: nat, t: nat)
    requires Ready(env.chart) && AtRest(env, m, s, t, ReadLog(log, s, t)) && JournalOf(log) == m.journal
    ensures var log', m' := log + [FlagTaken], TakeOverflow(m).0;
      AtRest(env, m', s, t, ReadLog(log', s, t)) && JournalOf(log') == m'.journal
  {
    hide Replay;
    LogItem(log, FlagTaken, s, t);
    assert (log + [FlagTaken])[..|log|] == log;
  }

  lemma AdvanceRest<C, E>(env: Env<C, E>, m: Config<C, E>, d: nat, log: seq<Item>, s: nat, t: nat)
    requires Ready(env.chart) && AtRest(env, m, s, t, ReadLog(log, s, t)) && JournalOf(log) == m.journal
    ensures var log', m' := log + Happened(env, m, Advance(d)), Step(env, m, d).0;
      AtRest(env, m', s, t, ReadLog(log', s, t)) && JournalOf(log') == m'.journal
  {
    var m' := Step(env, m, d).0;
    StepRest(env, m, d, s, t, ReadLog(log, s, t));
    assert StepLands(env, m, m', d, s, t, ReadLog(log, s, t));
    StepLogged(log, d, Added(m, m'), s, t);
  }

  lemma StepLogged(log: seq<Item>, d: nat, added: seq<TraceEvent>, s: nat, t: nat)
    ensures var log' := log + ([Ticked(d)] + SeenAll(added));
      && ReadLog(log', s, t) == Read(ReadItem(ReadLog(log, s, t), Ticked(d), s, t), added, s, t)
      && JournalOf(log') == JournalOf(log) + added
  {
    var ticked := log + [Ticked(d)];
    Assoc(log, [Ticked(d)], SeenAll(added));
    LogItem(log, Ticked(d), s, t);
    LogSeen(ticked, added, s, t);
    JournalOfSeen(ticked, added);
    assert ticked[..|log|] == log;
  }

  lemma SendRest<C, E>(env: Env<C, E>, m: Config<C, E>, e: E, log: seq<Item>, s: nat, t: nat)
    requires Ready(env.chart) && AtRest(env, m, s, t, ReadLog(log, s, t)) && JournalOf(log) == m.journal
    ensures var log', m' := log + Happened(env, m, SendEvent(e)), Send(env, m, e).0;
      AtRest(env, m', s, t, ReadLog(log', s, t)) && JournalOf(log') == m'.journal
  {
    if Send(env, m, e).1.Sent? {
      var id := EventId(env, e);
      LogItem(log, Queued(id), s, t);
      assert (log + [Queued(id)])[..|log|] == log;
      assert Ids(env, m.cameIn + [e]) == Ids(env, m.cameIn) + [id];
      Assoc(m.takenOut, m.queue, [e]);
    } else {
      assert log + Happened(env, m, SendEvent(e)) == log;
    }
  }

  /** After any run, reading its log describes the machine's state, and the log's journal
      entries are the machine's journal. */
  lemma {:induction false} RunReads<C, E>(env: Env<C, E>, ctx: C, inputs: seq<Input<E>>, s: nat, t: nat)
    requires Ready(env.chart)
    ensures AtRest(env, Run(env, ctx, inputs), s, t, ReadLog(RunLog(env, ctx, inputs), s, t))
    ensures JournalOf(RunLog(env, ctx, inputs)) == Run(env, ctx, inputs).journal
    decreases |inputs|
  {
    if inputs != [] {
      var before := inputs[..|inputs| - 1];
      RunReads(env, ctx, before, s, t);
      HappenedRest(env, Run(env, ctx, before), inputs[|inputs| - 1], RunLog(env, ctx, before), s, t);
    }
  }

  // ----- journals -----

  /** Every journal is well nested, and replaying its entries and exits on a stack gives the
      root-to-innermost path the machine is in. */
  lemma JournalReplaysToActivePath<C, E>(env: Env<C, E>, ctx: C, inputs: seq<Input<E>>)
    requires Ready(env.chart)
    ensures var m := Run(env, ctx, inputs);
      exists phase :: PhaseFits(m, phase) && Replay(env.chart, m.journal) == Some(Scan([], m.path, phase))
    ensures Run(env, ctx, inputs).path != [] ==> Active(env, Run(env, ctx, inputs))
  {
    RunReads(env, ctx, inputs, 0, 0);
  }

  // ----- queue -----

  /** The variant numbers of events; those the chart does not name share 65535. */
  predicate AreNumbers<C, E>(env: Env<C, E>, ids: seq<nat>, events: seq<E>) {
    && |ids| == |events|
    && forall i :: 0 <= i < |ids| ==>
         ids[i] == if env.variant(events[i]) < env.chart.nEvents then env.variant(events[i]) else 0xFFFF
  }

  /** Nothing is lost, invented or reordered: the events that came in, by accepted sends and emits,
      are those taken out followed by those queued, until termination, after which they begin with
      those taken out. The log shows the same events by their variants. The overflow flag says
      exactly whether an emit failed since it was last taken, and none succeeded after one that failed. */
  lemma QueueIsConserved<C, E>(env: Env<C, E>, ctx: C, inputs: seq<Input<E>>)
    requires Ready(env.chart)
    ensures var m, r := Run(env, ctx, inputs), ReadLog(RunLog(env, ctx, inputs), 0, 0);
      && |m.queue| <= env.queueCapacity
      && (!m.terminated ==> m.cameIn == m.takenOut + m.queue)
      && (m.terminated ==> m.takenOut <= m.cameIn && m.queue == [])
      && AreNumbers(env, r.inflow, m.cameIn) && AreNumbers(env, r.received, m.takenOut)
      && r.flag == Some(m.overflow)
  {
    RunReads(env, ctx, inputs, 0, 0);
  }

  /** A timer is due once `d` has passed. */
  predicate IsDue(ts: seq<TimerEntry>, d: nat) {
    MinRemaining(ts).Some? && MinRemaining(ts).value <= AsU64(d)
  }

  /** A step receives at most one event, the one that headed the queue before the step; it does so
      exactly when the machine stands in some state, an event is queued and no timer is due. */
  lemma StepReceivesHead<C, E>(env: Env<C, E>, ctx: C, inputs: seq<Input<E>>, d: nat)
    requires Ready(env.chart)
    ensures var m := Run(env, ctx, inputs);
      Run(env, ctx, inputs + [Advance(d)]).takenOut ==
        m.takenOut + if m.path != [] && m.queue != [] && !IsDue(m.timers, d) then [m.queue[0]] else []
  {
    hide Step, IsDue;
    RunSnoc(env, ctx, inputs, Advance(d));
    QueueIsConserved(env, ctx, inputs);
    StepTakesHead(env, Run(env, ctx, inputs), d);
  }

  lemma StepTakesHead<C, E>(env: Env<C, E>, m: Config<C, E>, d: nat)
    requires Ready(env.chart) && Resting(env, m) && (m.terminated ==> m.queue == [])
    ensures Step(env, m, d).0.takenOut ==
      m.takenOut + if m.path != [] && m.queue != [] && !IsDue(m.timers, d) then [m.queue[0]] else []
  {
    hide FireTimer, Receive, Start, Decremented, NextExpired;
    NoMoves(m.takenOut);
    if m.path != [] { FiresByMinimum(env, m, d); }
  }

  lemma StepReading<C, E>(env: Env<C, E>, ctx: C, inputs: seq<Input<E>>, d: nat, s: nat, t: nat)
    requires Ready(env.chart)
    ensures Run(env, ctx, inputs + [Advance(d)]) == Step(env, Run(env, ctx, inputs), d).0
    ensures StepReads(env, Run(env, ctx, inputs), d, ReadLog(RunLog(env, ctx, inputs), s, t),
      ReadLog(RunLog(env, ctx, inputs + [Advance(d)]), s, t))
  {
    var log, m := RunLog(env, ctx, inputs), Run(env, ctx, inputs);
    RunReads(env, ctx, inputs, s, t);
    StepRest(env, m, d, s, t, ReadLog(log, s, t));
    assert (inputs + [Advance(d)])[..|inputs|] == inputs;
    StepLogged(log, d, Added(m, Step(env, m, d).0), s, t);
  }

  /** The states entered and exited in a run, and the timers fired, in order. */
  function Moves<C, E>(env: Env<C, E>, ctx: C, inputs: seq<Input<E>>): seq<TraceEvent>
    requires Ready(env.chart)
  {
    ReadLog(RunLog(env, ctx, inputs), 0, 0).moves
  }

  function Fired<C, E>(env: Env<C, E>, ctx: C, inputs: seq<Input<E>>): seq<(nat, nat)>
    requires Ready(env.chart)
  {
    ReadLog(RunLog(env, ctx, inputs), 0, 0).fired
  }

  /** The chart tells variants apart as far as it names them. */
  predicate SameVariant(c: Chart, v1: nat, v2: nat) {
    v1 == v2 || (v1 >= c.nEvents && v2 >= c.nEvents)
  }

  /** Two machines for one chart agree in all that a step's moves can depend on: the active path,
      the timers, and the variant of the event heading the queue. */
  predicate SameSituation<C, E, D, F>(env1: Env<C, E>, m1: Config<C, E>, env2: Env<D, F>, m2: Config<D, F>) {
    && env1.chart == env2.chart
    && m1.path == m2.path && m1.timers == m2.timers && m1.terminated == m2.terminated
    && (|m1.queue| > 0 <==> |m2.queue| > 0)
    && (|m1.queue| > 0 && |m2.queue| > 0 ==>
          SameVariant(env1.chart, env1.variant(m1.queue[0]), env2.variant(m2.queue[0])))
  }

  /** What a step enters and exits is fixed by the chart, the active path and what triggers it:
      two runs with any two sets of actions, contexts, payloads and pasts that have come to the
      same situation add the same moves. */
  lemma MovesIgnoreActions<C, E, D, F>(env1: Env<C, E>, ctx1: C, inputs1: seq<Input<E>>,
      env2: Env<D, F>, ctx2: D, inputs2: seq<Input<F>>, d: nat) returns (moves: seq<TraceEvent>)
    requires Ready(env1.chart) && Ready(env2.chart)
    requires SameSituation(env1, Run(env1, ctx1, inputs1), env2, Run(env2, ctx2, inputs2))
    ensures Moves(env1, ctx1, inputs1 + [Advance(d)]) == Moves(env1, ctx1, inputs1) + moves
    ensures Moves(env2, ctx2, inputs2 + [Advance(d)]) == Moves(env2, ctx2, inputs2) + moves
  {
    hide RunLog, ReadLog, Step, ApplyAll;
    StepReading(env1, ctx1, inputs1, d, 0, 0);
    StepReading(env2, ctx2, inputs2, d, 0, 0);
    SameMoves(env1, Run(env1, ctx1, inputs1), env2, Run(env2, ctx2, inputs2), d);
    moves := StepMoves(env1, Run(env1, ctx1, inputs1), d);
  }

  lemma SameMoves<C, E, D, F>(env1: Env<C, E>, m1: Config<C, E>, env2: Env<D, F>, m2: Config<D, F>, d: nat)
    requires Ready(env1.chart) && Ready(env2.chart) && Resting(env1, m1) && Resting(env2, m2)
    requires SameSituation(env1, m1, env2, m2)
    ensures StepMoves(env1, m1, d) == StepMoves(env2, m2, d)
  {
    hide TriggerMoves, EventMoves, DefaultMoves, Decremented, NextExpired;
  }

  // ----- timers -----

  /** In every reachable state the table has at most one entry per key, each belonging to an
      active state that owns it, showing the time left since it was armed. If no root chain owns
      more timers than the table holds, an entry is there exactly while the timer is running. */
  lemma TimerTableIsExact<C, E>(env: Env<C, E>, ctx: C, inputs: seq<Input<E>>, s: nat, t: nat)
    requires Ready(env.chart)
    ensures var m, x := Run(env, ctx, inputs), ReadLog(RunLog(env, ctx, inputs), s, t).clock;
      && TimersOk(env.chart, m.timers, m.path)
      && (forall i: nat :: i < |m.timers| && IsKey(m.timers[i], s, t) ==>
            && x.Some? && t < |env.chart.durations|
            && var full := env.chart.durations[t].ns % 0x1_0000_0000_0000_0000;
               m.timers[i].remaining == if full > x.value then full - x.value else 0)
      && (ChainsFit(env.chart) ==> (x.Some? <==> HasKey(m.timers, s, t)))
  {
    RunReads(env, ctx, inputs, s, t);
    var m, x := Run(env, ctx, inputs), ReadLog(RunLog(env, ctx, inputs), s, t).clock;
    forall i: nat | i < |m.timers| && IsKey(m.timers[i], s, t)
      ensures x.Some? && m.timers[i].remaining == Left(env.chart, t, x.value) && t < |env.chart.durations|
    {
      assert EntryOwned(env.chart, m.timers, m.path, i) && StateOk(env.chart, s);
      assert RemainingIs(env.chart, m.timers, i, s, t, x);
    }
  }

  /** A step of a machine that stands in some state fires a timer, and only one, exactly when the
      shortest time left before it has elapsed. The timer that fires belongs to an active state
      that handles it, and was armed at least its duration ago, as far as durations below 2^64 go;
      of longer ones the low 64 bits have passed. */
  lemma FiresExactlyWhenDue<C, E>(env: Env<C, E>, ctx: C, inputs: seq<Input<E>>, d: nat)
    requires Ready(env.chart) && Run(env, ctx, inputs).path != []
    ensures var m := Run(env, ctx, inputs);
      var before, after := Fired(env, ctx, inputs), Fired(env, ctx, inputs + [Advance(d)]);
      if !IsDue(m.timers, d) then after == before
      else
        && |after| == |before| + 1 && before <= after
        && var (s, t) := after[|before|];
        && s in m.path && Handles(env.chart, s, Duration(t))
        && HasRunOut(env.chart, t, ReadItem(ReadLog(RunLog(env, ctx, inputs), s, t), Ticked(d), s, t).clock)
  {
    hide StepFires, RunLog, ReadLog, ReadItem, IsDue, ApplyAll, HasRunOut, Handles, Step;
    var m := Run(env, ctx, inputs);
    StepReading(env, ctx, inputs, d, 0, 0);
    FiresByMinimum(env, m, d);
    FiresAtMostOne(env, m, d);
    NoMoves(Fired(env, ctx, inputs));
    if IsDue(m.timers, d) {
      var (s, t) := StepFires(env, m, d)[0];
      RunReads(env, ctx, inputs, s, t);
      FiredRanOut(env, m, d, ReadLog(RunLog(env, ctx, inputs), s, t));
    }
  }

  lemma FiresAtMostOne<C, E>(env: Env<C, E>, m: Config<C, E>, d: nat)
    ensures StepFires(env, m, d) != [] ==> |StepFires(env, m, d)| == 1
  {
  }

  /** Armed `x` ago, and that is at least the duration, of which only the low 64 bits are kept. */
  predicate HasRunOut(c: Chart, t: nat, x: Option<nat>) {
    && x.Some? && t < |c.durations| && c.durations[t].ns % 0x1_0000_0000_0000_0000 <= x.value
    && (c.durations[t].ns < 0x1_0000_0000_0000_0000 ==> c.durations[t].ns <= x.value)
  }

  lemma FiresByMinimum<C, E>(env: Env<C, E>, m: Config<C, E>, d: nat)
    requires m.path != []
    ensures StepFires(env, m, d) != [] <==> IsDue(m.timers, d)
    ensures NextExpired(Decremented(m.timers, d), Depths(env.chart)).Some? <==> IsDue(m.timers, d)
  {
    NextExpiredIsDeepest(Decremented(m.timers, d), Depths(env.chart));
    ExpiresByMinimum(m.timers, d);
  }

  lemma FiredRanOut<C, E>(env: Env<C, E>, m: Config<C, E>, d: nat, r: Reading)
    requires Ready(env.chart) && StepFires(env, m, d) != []
    requires var (s, t) := StepFires(env, m, d)[0]; AtRest(env, m, s, t, r)
    ensures var (s, t) := StepFires(env, m, d)[0];
      && s in m.path && Handles(env.chart, s, Duration(t))
      && HasRunOut(env.chart, t, ReadItem(r, Ticked(d), s, t).clock)
  {
    hide Replay, Ids;
    var ts := Decremented(m.timers, d);
    var i := NextExpired(ts, Depths(env.chart)).value;
    var s, t := ts[i].state, ts[i].trigger;
    assert EntryOwned(env.chart, m.timers, m.path, i);
    TickClock(env.chart, m.timers, s, t, r, d);
    assert RemainingIs(env.chart, ts, i, s, t, ReadItem(r, Ticked(d), s, t).clock);
    assert StateOk(env.chart, s);
    OwnedIsHandled(env.chart, s, t);
  }

  /** A state handles every timer it owns. */
  lemma OwnedIsHandled(c: Chart, s: nat, t: nat)
    requires WellFormed(c) && s < |c.states| && t in c.states[s].ownedTimers
    ensures Handles(c, s, Duration(t))
  {
    assert StateOk(c, s) && HasTrigger(c.states[s], Duration(t));
    var at := DeclaredAt(c.states[s].handlers, Duration(t));
  }

  lemma ExpiresByMinimum(ts: seq<TimerEntry>, d: nat)
    ensures (exists i :: 0 <= i < |ts| && Decremented(ts, d)[i].remaining == 0) <==>
      (MinRemaining(ts).Some? && MinRemaining(ts).value <= AsU64(d))
  {
    var due := MinRemaining(ts);
    if due.Some? && due.value <= AsU64(d) {
      var i :| 0 <= i < |ts| && due.value == ts[i].remaining;
      assert Decremented(ts, d)[i].remaining == 0;
    }
  }

  /** Unless it ends the run, a step returns the time left to the next timer, and calls that
      are not steps do not change it: the deadline a step returns is the one that fires. */
  lemma {:induction false} DeadlineHolds<C, E>(env: Env<C, E>, ctx: C, inputs: seq<Input<E>>, d: nat,
      between: seq<Input<E>>)
    requires Ready(env.chart) && forall i :: 0 <= i < |between| ==> !between[i].Advance?
    ensures var before := Run(env, ctx, inputs);
      var (m, deadline) := Step(env, before, d);
      var later := Run(env, ctx, inputs + [Advance(d)] + between);
      && later.timers == m.timers && later.path == m.path && later.terminated == m.terminated
      && deadline == if m.terminated then None else MinRemaining(later.timers)
    decreases |between|
  {
    var first := inputs + [Advance(d)];
    if between == [] {
      NoMoves(first);
      RunSnoc(env, ctx, inputs, Advance(d));
      StepDeadline(env, Run(env, ctx, inputs), d);
    } else {
      var n := |between| - 1;
      DeadlineHolds(env, ctx, inputs, d, between[..n]);
      assert between[..n] + [between[n]] == between;
      Assoc(first, between[..n], [between[n]]);
      RunSnoc(env, ctx, first + between[..n], between[n]);
      OnlyStepsMove(env, Run(env, ctx, first + between[..n]), between[n]);
    }
  }

  /** A step fires a timer exactly when the previous step returned a deadline and at least that
      much time passed, whatever was sent or read in between. */
  lemma FiresIffDeadlinePassed<C, E>(env: Env<C, E>, ctx: C, inputs: seq<Input<E>>, d: nat,
      between: seq<Input<E>>, elapsed: nat)
    requires Ready(env.chart) && forall i :: 0 <= i < |between| ==> !between[i].Advance?
    ensures var deadline := Step(env, Run(env, ctx, inputs), d).1;
      var all := inputs + [Advance(d)] + between;
      Fired(env, ctx, all + [Advance(elapsed)]) != Fired(env, ctx, all) <==>
        deadline.Some? && deadline.value <= AsU64(elapsed)
  {
    hide Step, StepFires, MinRemaining, ApplyAll, RunLog, ReadLog, Handles, HasRunOut;
    DeadlineHolds(env, ctx, inputs, d, between);
    StepStands(env, Run(env, ctx, inputs), d);
    var all := inputs + [Advance(d)] + between;
    if Run(env, ctx, all).path != [] {
      FiresExactlyWhenDue(env, ctx, all, elapsed);
    } else {
      StepReading(env, ctx, all, elapsed, 0, 0);
      NothingFires(env, Run(env, ctx, all), elapsed);
      NoMoves(Fired(env, ctx, all));
    }
  }

  /** After a step the machine stands in some state, unless it has ended. */
  lemma StepStands<C, E>(env: Env<C, E>, m: Config<C, E>, d: nat)
    requires Ready(env.chart) && Resting(env, m)
    ensures var r := Step(env, m, d).0; if r.terminated then r.path == [] else r.path != []
  {
    hide FireTimer, Receive, Start;
  }

  lemma NothingFires<C, E>(env: Env<C, E>, m: Config<C, E>, d: nat)
    requires m.path == []
    ensures StepFires(env, m, d) == []
  {
  }

  lemma RunSnoc<C, E>(env: Env<C, E>, ctx: C, inputs: seq<Input<E>>, input: Input<E>)
    requires Ready(env.chart)
    ensures Run(env, ctx, inputs + [input]) == Apply(env, Run(env, ctx, inputs), input)
  {
    assert (inputs + [input])[..|inputs|] == inputs;
  }

  lemma StepDeadline<C, E>(env: Env<C, E>, m: Config<C, E>, d: nat)
    requires Ready(env.chart) && Resting(env, m)
    ensures Step(env, m, d).1 == if Step(env, m, d).0.terminated then None else MinRemaining(Step(env, m, d).0.timers)
  {
  }

  lemma OnlyStepsMove<C, E>(env: Env<C, E>, m: Config<C, E>, input: Input<E>)
    requires Ready(env.chart) && Resting(env, m) && !input.Advance?
    ensures var m' := Apply(env, m, input); m'.timers == m.timers && m'.path == m.path && m'.terminated == m.terminated
  {
  }

  // ----- termination -----

  /** A step receives the terminate event: it heads the queue and no timer is due. */
  predicate Terminates<C, E>(env: Env<C, E>, m: Config<C, E>, d: nat) {
    && m.path != [] && |m.queue| > 0 && !IsDue(m.timers, d)
    && env.chart.terminate == Some(env.variant(m.queue[0]))
  }

  /** A running machine ends in a step exactly when the step receives the terminate event. */
  lemma EndsIffTerminates<C, E>(env: Env<C, E>, m: Config<C, E>, d: nat)
    requires Ready(env.chart) && Resting(env, m) && !m.terminated
    ensures Step(env, m, d).0.terminated <==> Terminates(env, m, d)
  {
    hide FireTimer, Deliver, Shutdown, Start, Decremented, NextExpired;
    if m.path != [] { FiresByMinimum(env, m, d); }
  }

  /** A received terminate event exits the active path innermost first through the root, leaves
      queue and timer table empty, and nothing after it has any effect but taking the flag. */
  lemma TerminateEndsEverything<C, E>(env: Env<C, E>, ctx: C, inputs: seq<Input<E>>, d: nat)
    requires Ready(env.chart) && Terminates(env, Run(env, ctx, inputs), d)
    ensures var m := Run(env, ctx, inputs);
      var end := Run(env, ctx, inputs + [Advance(d)]);
      && end.terminated && end.path == [] && end.queue == [] && end.timers == []
      && Moves(env, ctx, inputs + [Advance(d)]) == Moves(env, ctx, inputs) + Exits(m.path, 0)
      && (forall d' :: Step(env, end, d') == (end, None))
      && (forall e :: Send(env, end, e) == (end, AlreadyTerminated))
  {
    hide Shutdown, Deliver, FireTimer, Start, IsDue;
    hide ReadLog, RunLog, ApplyAll;
    var m := Run(env, ctx, inputs);
    FiresByMinimum(env, m, d);
    RunReads(env, ctx, inputs, 0, 0);
    RunSnoc(env, ctx, inputs, Advance(d));
    StepReading(env, ctx, inputs, d, 0, 0);
    TerminateCase(env, m, d, 0, 0, ReadLog(RunLog(env, ctx, inputs), 0, 0));
  }
}
