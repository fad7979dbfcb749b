/** The reference interpreter: what a chart means, run directly on the active path. Events
    bubble by walking the path, common ancestors are found when a transition fires, states are
    left and entered one at a time, and defaults fire as transitions. */
module Reference {
  import opened Wrappers
  import opened Charts
  import opened Tree
  import opened Handlers
  import opened Validate
  import opened Timers
  import opened Dispatch
  import opened Trace

  /** A chart together with the user's code: actions, and the variant number of an event. */
  datatype Env<!C, !E> = Env(
    chart: Chart, act: (nat, C, Option<E>) -> Act<C, E>, variant: E -> nat, queueCapacity: nat)

  /** `path` lists the active states, root first; it is empty before the start and after the end.
      `cameIn` and `takenOut` only record which events ever entered and left the queue. */
  datatype Config<C, E> = Config(
    ctx: C, path: seq<nat>, queue: seq<E>, cameIn: seq<E>, takenOut: seq<E>, timers: seq<TimerEntry>,
    terminated: bool, overflow: bool, journal: seq<TraceEvent>)

  predicate OrderedAt(c: Chart, s: nat)
    requires s < |c.states|
  {
    TransitionsLast(c.states[s].handlers)
  }

  /** What validation and code generation establish about a chart before it runs. */
  ghost predicate Ready(c: Chart) {
    && WellFormed(c)
    && DefaultsTerminate(c)
    && forall s: nat :: s < |c.states| ==> OrderedAt(c, s)
  }

  /** The id of an event: its number when the chart names its variant, else the sentinel. */
  function EventId<C, E>(env: Env<C, E>, e: E): (id: nat)
    ensures id < env.chart.nEvents || id == U16_MAX
  {
    if env.variant(e) < env.chart.nEvents then env.variant(e) else U16_MAX
  }

  function TimerCapacity(c: Chart): nat {
    if |c.durations| == 0 then 1 else |c.durations|
  }

  function Depths(c: Chart): seq<nat> {
    seq(|c.states|, s requires 0 <= s < |c.states| => c.states[s].depth)
  }

  function DurationOf(c: Chart, t: nat): nat {
    if t < |c.durations| then c.durations[t].ns else 0
  }

  function Repeats(c: Chart, t: nat): bool {
    t < |c.durations| && c.durations[t].repeats
  }

  function Init<C, E>(ctx: C): Config<C, E> {
    Config(ctx, [], [], [], [], [], false, false, [])
  }

  function Log<C, E>(m: Config<C, E>, es: seq<TraceEvent>): Config<C, E> {
    m.(journal := m.journal + es)
  }

  function Push<C, E>(m: Config<C, E>, e: E): Config<C, E> {
    m.(queue := m.queue + [e], cameIn := m.cameIn + [e])
  }

  function Take<C, E>(m: Config<C, E>): Config<C, E>
    requires m.queue != []
  {
    m.(queue := m.queue[1..], takenOut := m.takenOut + [m.queue[0]])
  }

  predicate PathInChart(c: Chart, path: seq<nat>) {
    forall i :: 0 <= i < |path| ==> path[i] < |c.states|
  }

  /** The active path runs from the root to its last state. */
  predicate Active<C, E>(env: Env<C, E>, m: Config<C, E>)
    requires IsTree(env.chart)
  {
    m.path != [] && PathInChart(env.chart, m.path) && m.path == RootPath(env.chart, Last(m.path))
  }

  // ----- actions -----

  /** An emit succeeds while the queue has room and no earlier emit has failed since the
      overflow flag was last taken. */
  function RunAct<C, E>(env: Env<C, E>, m: Config<C, E>, a: Act<C, E>): (r: Config<C, E>)
    ensures r.path == m.path && r.timers == m.timers && r.terminated == m.terminated && r.takenOut == m.takenOut
    decreases a
  {
    match a
    case Done(ctx) => m.(ctx := ctx)
    case Emit(e, onOk, onFull) =>
      if !m.overflow && |m.queue| < env.queueCapacity then
        RunAct(env, Log(Push(m, e), [EmitQueued(EventId(env, e))]), onOk)
      else
        RunAct(env, Log(m.(overflow := true), [EmitFailed(EventId(env, e))]), onFull)
  }

  function Invoke<C, E>(env: Env<C, E>, m: Config<C, E>, s: nat, a: nat, kind: ActionKind,
      ev: Option<E>): (r: Config<C, E>)
    ensures r.path == m.path && r.timers == m.timers && r.terminated == m.terminated && r.takenOut == m.takenOut
  {
    RunAct(env, Log(m, [ActionInvoked(s, a, kind)]), env.act(a, m.ctx, ev))
  }

  function InvokeAll<C, E>(env: Env<C, E>, m: Config<C, E>, s: nat, ids: seq<nat>, kind: ActionKind,
      ev: Option<E>): (r: Config<C, E>)
    ensures r.path == m.path && r.timers == m.timers && r.terminated == m.terminated && r.takenOut == m.takenOut
    decreases |ids|
  {
    if ids == [] then m else InvokeAll(env, Invoke(env, m, s, ids[0], kind, ev), s, ids[1..], kind, ev)
  }

  // ----- one state in, one state out -----

  function Arm<C, E>(env: Env<C, E>, m: Config<C, E>, s: nat, t: nat): Config<C, E> {
    var ns := DurationOf(env.chart, t);
    Log(m.(timers := AfterStart(m.timers, TimerCapacity(env.chart), s, t, ns)), [TimerArmed(s, t, AsU64(ns))])
  }

  function ArmAll<C, E>(env: Env<C, E>, m: Config<C, E>, s: nat, ts: seq<nat>): (r: Config<C, E>)
    ensures r == m.(timers := r.timers, journal := r.journal)
    decreases |ts|
  {
    if ts == [] then m else ArmAll(env, Arm(env, m, s, ts[0]), s, ts[1..])
  }

  function DuringsStarted(s: nat, n: nat): seq<TraceEvent> {
    seq(n, d requires 0 <= d < n => DuringStarted(s, d))
  }

  function DuringsCancelled(s: nat, n: nat): seq<TraceEvent> {
    seq(n, d requires 0 <= d < n => DuringCancelled(s, d))
  }

  function TimersCancelled(s: nat, ts: seq<nat>): seq<TraceEvent> {
    seq(|ts|, i requires 0 <= i < |ts| => TimerCancelled(s, ts[i]))
  }

  /** Entry actions, then timers, then durings; the state is then the innermost active one. */
  function Enter<C, E>(env: Env<C, E>, m: Config<C, E>, s: nat): (r: Config<C, E>)
    requires s < |env.chart.states|
    ensures r.path == m.path + [s] && r.terminated == m.terminated && r.takenOut == m.takenOut
  {
    var st := env.chart.states[s];
    var began := Log(m, [EnterBegan(s)]);
    var acted := InvokeAll(env, began, s, st.entries, EntryAction, None);
    var armed := ArmAll(env, acted, s, st.ownedTimers);
    Log(Log(armed.(path := m.path + [s]), DuringsStarted(s, st.durings)), [Entered(s)])
  }

  /** The innermost active state stops its durings and timers. */
  function Stop<C, E>(env: Env<C, E>, m: Config<C, E>): (r: Config<C, E>)
    requires m.path != [] && Last(m.path) < |env.chart.states|
    ensures r == m.(timers := Cancelled(m.timers, Last(m.path)), journal := r.journal)
  {
    var s := Last(m.path);
    var st := env.chart.states[s];
    var began := Log(Log(Log(m, [ExitBegan(s)]), DuringsCancelled(s, st.durings)), TimersCancelled(s, st.ownedTimers));
    began.(timers := Cancelled(m.timers, s))
  }

  /** The innermost active state stops its durings and timers, runs its exit actions and is gone. */
  function Exit<C, E>(env: Env<C, E>, m: Config<C, E>): (r: Config<C, E>)
    requires m.path != [] && Last(m.path) < |env.chart.states|
    ensures r.path == m.path[..|m.path| - 1] && r.terminated == m.terminated && r.takenOut == m.takenOut
  {
    var s := Last(m.path);
    var st := env.chart.states[s];
    var acted := InvokeAll(env, Stop(env, m), s, st.exits, ExitAction, None);
    Log(acted.(path := m.path[..|m.path| - 1]), [Exited(s)])
  }

  /** Leaves states, innermost first, until `k` remain active. */
  function ExitTo<C, E>(env: Env<C, E>, m: Config<C, E>, k: nat): (r: Config<C, E>)
    requires k <= |m.path| && PathInChart(env.chart, m.path)
    ensures r.path == m.path[..k] && r.terminated == m.terminated && r.takenOut == m.takenOut
    decreases |m.path|
  {
    if |m.path| == k then m else ExitTo(env, Exit(env, m), k)
  }

  /** Enters states, outermost first. */
  function EnterAll<C, E>(env: Env<C, E>, m: Config<C, E>, ss: seq<nat>): (r: Config<C, E>)
    requires PathInChart(env.chart, ss)
    ensures r.path == m.path + ss && r.terminated == m.terminated && r.takenOut == m.takenOut
    decreases |ss|
  {
    if ss == [] then m else EnterAll(env, Enter(env, m, ss[0]), ss[1..])
  }

  // ----- transitions -----

  /** A transition enters something unless its target is a strict ancestor of the innermost state. */
  predicate EntersFrom(c: Chart, path: seq<nat>, target: nat)
    requires IsTree(c) && target < |c.states| && path != []
  {
    Kept(c, path, target) < |RootPath(c, target)|
  }

  /** Leave everything below the lowest common ancestor, enter everything below it on the way to
      the target; the innermost state itself is left and entered again. */
  function Travel<C, E>(env: Env<C, E>, m: Config<C, E>, target: nat): (r: Config<C, E>)
    requires IsTree(env.chart) && m.path != [] && PathInChart(env.chart, m.path) && target < |env.chart.states|
    ensures r.path == RootPath(env.chart, target) && r.terminated == m.terminated && r.takenOut == m.takenOut
    ensures Active(env, r) && Last(r.path) == target
  {
    var to, k := RootPath(env.chart, target), Kept(env.chart, m.path, target);
    Rejoin(env.chart, m.path, target);
    EnterAll(env, ExitTo(env, m, k), to[k..])
  }

  lemma Rejoin(c: Chart, path: seq<nat>, to: nat)
    requires IsTree(c) && to < |c.states| && path != []
    ensures var k := Kept(c, path, to); path[..k] + RootPath(c, to)[k..] == RootPath(c, to)
    ensures PathInChart(c, RootPath(c, to)[Kept(c, path, to)..])
  {
  }

  ghost function RankOf(c: Chart): (rank: seq<nat>)
    requires DefaultsTerminate(c)
    ensures IsRanking(c, rank)
  {
    var rank :| IsRanking(c, rank);
    rank
  }

  lemma FollowStep<C, E>(env: Env<C, E>, m: Config<C, E>, target: nat)
    requires Ready(env.chart) && Active(env, m) && Next(env.chart, Last(m.path)) == Some(target)
    requires target < |env.chart.states|
    ensures Active(env, DefaultFired(env, m, target))
    ensures FollowDefaults(env, m) ==
      var done := DefaultFired(env, m, target);
      if EntersFrom(env.chart, m.path, target) then FollowDefaults(env, done) else done
    ensures RankOf(env.chart)[target] < RankOf(env.chart)[Last(m.path)]
  {
    DefaultLowersRank(env.chart, Last(m.path));
  }

  /** One transition, bracketed in the journal. */
  function Fire<C, E>(env: Env<C, E>, m: Config<C, E>, target: nat, reason: Reason): (r: Config<C, E>)
    requires Ready(env.chart) && Active(env, m) && target < |env.chart.states|
    ensures Active(env, r) && r.terminated == m.terminated && r.takenOut == m.takenOut
    decreases 1, 0
  {
    var from := Some(Last(m.path));
    var there := Travel(env, Log(m, [TransitionFired(from, target, reason)]), target);
    var rested := if EntersFrom(env.chart, m.path, target) then FollowDefaults(env, there) else there;
    Log(rested, [TransitionComplete(from, target)])
  }

  /** One default transition, bracketed in the journal. */
  function DefaultFired<C, E>(env: Env<C, E>, m: Config<C, E>, target: nat): (r: Config<C, E>)
    requires IsTree(env.chart) && m.path != [] && PathInChart(env.chart, m.path) && target < |env.chart.states|
    ensures r.path == RootPath(env.chart, target) && r.terminated == m.terminated && r.takenOut == m.takenOut
    ensures Active(env, r) && Last(r.path) == target
  {
    var from := Some(Last(m.path));
    var fired := Log(m, [TransitionFired(from, target, Reason.Internal)]);
    Log(Travel(env, fired, target), [TransitionComplete(from, target)])
  }

  lemma DefaultLowersRank(c: Chart, s: nat)
    requires Ready(c) && s < |c.states|
    ensures var next := Next(c, s); next.Some? ==> next.value < |c.states| && RankOf(c)[next.value] < RankOf(c)[s]
  {
    NextInChart(c, s);
    assert RankFalls(c, RankOf(c), s);
  }

  lemma NextInChart(c: Chart, s: nat)
    requires WellFormed(c) && s < |c.states|
    ensures Next(c, s).Some? ==> Next(c, s).value < |c.states|
  {
    assert StateOk(c, s);
  }

  /** Fires the innermost state's default as a transition, and so on while states are entered. */
  function FollowDefaults<C, E>(env: Env<C, E>, m: Config<C, E>): (r: Config<C, E>)
    requires Ready(env.chart) && Active(env, m)
    ensures Active(env, r) && r.terminated == m.terminated && r.takenOut == m.takenOut
    decreases 0, RankOf(env.chart)[Last(m.path)]
  {
    DefaultLowersRank(env.chart, Last(m.path));
    match Next(env.chart, Last(m.path))
    case None => m
    case Some(target) =>
      var done := DefaultFired(env, m, target);
      if EntersFrom(env.chart, m.path, target) then FollowDefaults(env, done) else done
  }

  // ----- triggers -----

  /** A state's handlers for one trigger, run left to right as declared. */
  function RunDeclared<C, E>(env: Env<C, E>, m: Config<C, E>, s: nat, kinds: seq<HandlerKind>, ev: Option<E>,
      reason: Reason): (r: Config<C, E>)
    requires Ready(env.chart) && Active(env, m)
    requires forall i :: 0 <= i < |kinds| && kinds[i].Transition? ==> kinds[i].target < |env.chart.states|
    ensures Active(env, r) && r.terminated == m.terminated && r.takenOut == m.takenOut
    decreases |kinds|
  {
    if kinds == [] then m
    else
      var next := match kinds[0]
        case Action(a) => Invoke(env, m, s, a, HandlerAction, ev)
        case Transition(t) => Fire(env, m, t, reason);
      RunDeclared(env, next, s, kinds[1..], ev, reason)
  }

  lemma RunOne<C, E>(env: Env<C, E>, m: Config<C, E>, s: nat, target: nat, ev: Option<E>, reason: Reason)
    requires Ready(env.chart) && Active(env, m) && target < |env.chart.states|
    ensures RunDeclared(env, m, s, [HandlerKind.Transition(target)], ev, reason) == Fire(env, m, target, reason)
  {
    assert [HandlerKind.Transition(target)][1..] == [];
  }

  lemma RunNext<C, E>(env: Env<C, E>, m: Config<C, E>, s: nat, kinds: seq<HandlerKind>, i: nat, a: nat, ev: Option<E>,
      reason: Reason)
    requires Ready(env.chart) && Active(env, m) && i < |kinds| && kinds[i] == Action(a)
    requires forall i :: 0 <= i < |kinds| && kinds[i].Transition? ==> kinds[i].target < |env.chart.states|
    ensures RunDeclared(env, m, s, kinds[i..], ev, reason) ==
      RunDeclared(env, Invoke(env, m, s, a, HandlerAction, ev), s, kinds[i + 1..], ev, reason)
  {
    assert kinds[i..][1..] == kinds[i + 1..];
  }

  lemma {:induction false} DeclaredInChart(c: Chart, hs: seq<Handler>, trigger: Trigger)
    requires forall i :: 0 <= i < |hs| && hs[i].kind.Transition? ==> hs[i].kind.target < |c.states|
    ensures forall i :: 0 <= i < |Declared(hs, trigger)| && Declared(hs, trigger)[i].Transition? ==>
      Declared(hs, trigger)[i].target < |c.states|
  {
    if hs != [] { DeclaredInChart(c, hs[..|hs| - 1], trigger); }
  }

  function RunTrigger<C, E>(env: Env<C, E>, m: Config<C, E>, s: nat, trigger: Trigger, ev: Option<E>,
      reason: Reason): (r: Config<C, E>)
    requires Ready(env.chart) && Active(env, m) && s < |env.chart.states|
    ensures Active(env, r) && r.terminated == m.terminated && r.takenOut == m.takenOut
  {
    var hs := env.chart.states[s].handlers;
    assert StateOk(env.chart, s);
    DeclaredInChart(env.chart, hs, trigger);
    RunDeclared(env, m, s, Declared(hs, trigger), ev, reason)
  }

  /** Offers an event to the active path, innermost state first. */
  function Deliver<C, E>(env: Env<C, E>, m: Config<C, E>, e: E): (r: Config<C, E>)
    requires Ready(env.chart) && Active(env, m)
    ensures Active(env, r) && r.terminated == m.terminated && r.takenOut == m.takenOut
  {
    var id := EventId(env, e);
    if id == U16_MAX then Log(m, [EventDropped(id)])
    else
      match Bubble(env.chart, m.path, Trigger.Event(id))
      case None => Log(m, [EventDropped(id)])
      case Some(h) => RunTrigger(env, Log(m, [EventDelivered(h, id)]), h, Trigger.Event(id), Some(e), Reason.Event(id))
  }

  /** Timer `i` of the table fires: a repeating one is armed again, then its own state's handlers run. */
  function FireTimer<C, E>(env: Env<C, E>, m: Config<C, E>, i: nat): (r: Config<C, E>)
    requires Ready(env.chart) && Active(env, m) && i < |m.timers|
    ensures Active(env, r) && r.terminated == m.terminated && r.takenOut == m.takenOut
  {
    var s, t := m.timers[i].state, m.timers[i].trigger;
    var fired := Log(m.(timers := SwapRemove(m.timers, i)), [TimerFired(s, t)]);
    var ready := if Repeats(env.chart, t) then Arm(env, fired, s, t) else fired;
    if s < |env.chart.states| then RunTrigger(env, ready, s, Duration(t), None, Reason.Timer(s, t)) else ready
  }

  /** Leaves the whole active path; events emitted on the way are dropped with the queue. */
  function Shutdown<C, E>(env: Env<C, E>, m: Config<C, E>): (r: Config<C, E>)
    requires PathInChart(env.chart, m.path)
    ensures r.path == [] && r.queue == [] && r.terminated && r.takenOut == m.takenOut
  {
    Log(ExitTo(env, m, 0).(queue := [], terminated := true), [Terminated])
  }

  // ----- the machine's interface -----

  /** Not yet started, terminated, or resting in an active path. */
  predicate Resting<C, E>(env: Env<C, E>, m: Config<C, E>)
    requires IsTree(env.chart)
  {
    if m.path == [] then true else Active(env, m) && !m.terminated
  }

  /** Enters the root and follows its defaults. */
  function Start<C, E>(env: Env<C, E>, m: Config<C, E>): (r: Config<C, E>)
    requires Ready(env.chart) && m.path == []
    ensures Active(env, r) && r.terminated == m.terminated && r.takenOut == m.takenOut
  {
    FollowDefaults(env, Enter(env, Log(m, [Started(env.chart.hash)]), 0))
  }

  /** Takes the head of the queue: the terminate event ends the machine, any other is delivered. */
  function Receive<C, E>(env: Env<C, E>, m: Config<C, E>): (r: (Config<C, E>, Option<nat>))
    requires Ready(env.chart) && Active(env, m) && !m.terminated && m.queue != []
    ensures Resting(env, r.0) && (r.0.path == [] ==> r.0.terminated)
    ensures r.0.takenOut == m.takenOut + [m.queue[0]]
  {
    var e := m.queue[0];
    var id := EventId(env, e);
    var taken := Log(Take(m), [EventReceived(id)]);
    if env.chart.terminate == Some(env.variant(e)) then (Shutdown(env, Log(taken, [TerminateRequested(id)])), None)
    else
      var r := Deliver(env, taken, e);
      (r, MinRemaining(r.timers))
  }

  /** At most one unit of work: the start, one timer, or one event. */
  function Step<C, E>(env: Env<C, E>, m: Config<C, E>, elapsed: nat): (r: (Config<C, E>, Option<nat>))
    requires Ready(env.chart) && Resting(env, m)
    ensures Resting(env, r.0)
  {
    if m.terminated then (m, None)
    else if m.path == [] then
      var r := Start(env, m);
      (r, MinRemaining(r.timers))
    else
      var now := m.(timers := Decremented(m.timers, elapsed));
      match NextExpired(now.timers, Depths(env.chart))
      case Some(i) =>
        var r := FireTimer(env, now, i);
        (r, MinRemaining(r.timers))
      case None =>
        if now.queue == [] then (now, MinRemaining(now.timers)) else Receive(env, now)
  }

  datatype SendResult = Sent | QueueFull | AlreadyTerminated

  function Send<C, E>(env: Env<C, E>, m: Config<C, E>, e: E): (Config<C, E>, SendResult) {
    if m.terminated then (m, AlreadyTerminated)
    else if |m.queue| < env.queueCapacity then (Push(m, e), Sent)
    else (m, QueueFull)
  }

  function TakeOverflow<C, E>(m: Config<C, E>): (Config<C, E>, bool) {
    (m.(overflow := false), m.overflow)
  }

  datatype DispatchResult = Drained | Refused | Overflowed | Unfinished

  /** Steps of no duration while events are queued, the overflow flag taken after each; the end and
      an overflow stop it at once. `Unfinished` after `patience` steps. */
  function Drain<C, E>(env: Env<C, E>, m: Config<C, E>, patience: nat): (r: (Config<C, E>, DispatchResult))
    requires Ready(env.chart) && Resting(env, m)
    ensures Resting(env, r.0)
    decreases patience
  {
    if |m.queue| == 0 then (m, Drained)
    else if patience == 0 then (m, Unfinished)
    else
      var (next, full) := TakeOverflow(Step(env, m, 0).0);
      if full then (next, Overflowed)
      else if next.terminated then (next, Drained)
      else Drain(env, next, patience - 1)
  }

  /** Queues an event, then drains the queue. */
  function SendAndDrain<C, E>(env: Env<C, E>, m: Config<C, E>, e: E, patience: nat): (r: (Config<C, E>, DispatchResult))
    requires Ready(env.chart) && Resting(env, m)
    ensures Resting(env, r.0)
  {
    var (next, sent) := Send(env, m, e);
    if !sent.Sent? then (next, Refused) else Drain(env, next, patience)
  }

  /** Once the queue is drained, more patience changes nothing: a loop that ends without a bound
      ends the same way under any bound it stays within. */
  lemma {:induction false} PatienceIsNoMatter<C, E>(env: Env<C, E>, m: Config<C, E>, patience: nat, more: nat)
    requires Ready(env.chart) && Resting(env, m) && !Drain(env, m, patience).1.Unfinished?
    ensures Drain(env, m, patience + more) == Drain(env, m, patience)
    decreases patience
  {
    hide Step;
    if |m.queue| != 0 && patience > 0 {
      var (next, full) := TakeOverflow(Step(env, m, 0).0);
      if !full && !next.terminated { PatienceIsNoMatter(env, next, patience - 1, more); }
    }
  }

  datatype Input<E> = SendEvent(event: E) | Advance(elapsed: nat) | TakeFlag

  function Apply<C, E>(env: Env<C, E>, m: Config<C, E>, input: Input<E>): (r: Config<C, E>)
    requires Ready(env.chart) && Resting(env, m)
    ensures Resting(env, r)
  {
    match input
    case SendEvent(e) => Send(env, m, e).0
    case Advance(d) => Step(env, m, d).0
    case TakeFlag => TakeOverflow(m).0
  }

  /** A sequence of calls, one after the other. */
  function ApplyAll<C, E>(env: Env<C, E>, m: Config<C, E>, inputs: seq<Input<E>>): (r: Config<C, E>)
    requires Ready(env.chart) && Resting(env, m)
    ensures Resting(env, r)
    decreases |inputs|
  {
    if inputs == [] then m
    else Apply(env, ApplyAll(env, m, inputs[..|inputs| - 1]), inputs[|inputs| - 1])
  }

  lemma ApplyNext<C, E>(env: Env<C, E>, m: Config<C, E>, inputs: seq<Input<E>>, input: Input<E>)
    requires Ready(env.chart) && Resting(env, m)
    ensures ApplyAll(env, m, inputs + [input]) == Apply(env, ApplyAll(env, m, inputs), input)
  {
    assert (inputs + [input])[..|inputs|] == inputs;
  }

  /** A whole run from a fresh machine. */
  function Run<C, E>(env: Env<C, E>, ctx: C, inputs: seq<Input<E>>): (r: Config<C, E>)
    requires Ready(env.chart)
    ensures Resting(env, r)
  {
    ApplyAll(env, Init(ctx), inputs)
  }
}
