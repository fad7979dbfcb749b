/** The machine one journal entry at a time. At any moment the chart fixes what must come next:
    an outcome of the running action's `emit`, or the first of the entries still due. Nothing here
    refers to the interpreter; identifiers, durations and capacities are read off the chart. */
module SmallSteps {
  import opened Wrappers
  import opened Charts
  import opened Tree
  import opened Handlers
  import opened Timers
  import opened Dispatch
  import opened Trace
  import opened Reference

  /** `due` lists the entries that must follow, `run` is the action now waiting for the result of
      an `emit`, and `event` what handlers of this step are given. */
  datatype Spot<C, E> = Spot(
    ctx: C, path: seq<nat>, queue: seq<E>, timers: seq<TimerEntry>, ended: bool, overflow: bool,
    due: seq<TraceEvent>, run: Option<Act<C, E>>, event: Option<E>)

  predicate IsResting<C, E>(p: Spot<C, E>) {
    p.due == [] && p.run.None?
  }

  /** Events of variants the chart does not name share the number 65535. */
  function Number<C, E>(env: Env<C, E>, e: E): nat {
    if env.variant(e) < env.chart.nEvents then env.variant(e) else 0xFFFF
  }

  function StateDepths(c: Chart): seq<nat> {
    seq(|c.states|, s requires 0 <= s < |c.states| => c.states[s].depth)
  }

  /** One slot per distinct duration, and at least one. */
  function Slots(c: Chart): nat {
    if c.durations == [] then 1 else |c.durations|
  }

  // ----- what is due after what -----

  function Invocations(s: nat, ids: seq<nat>, kind: ActionKind): seq<TraceEvent> {
    seq(|ids|, i requires 0 <= i < |ids| => ActionInvoked(s, ids[i], kind))
  }

  function Armings(c: Chart, s: nat, tids: seq<nat>): seq<TraceEvent> {
    seq(|tids|, i requires 0 <= i < |tids| => TimerArmed(s, tids[i], FullTime(c, tids[i])))
  }

  /** Entry actions, then timers, then durings. */
  function EnterScript(c: Chart, s: nat): seq<TraceEvent>
    requires s < |c.states|
  {
    var st := c.states[s];
    Invocations(s, st.entries, EntryAction)
    + Armings(c, s, st.ownedTimers)
    + seq(st.durings, d requires 0 <= d < st.durings => DuringStarted(s, d))
    + [Entered(s)]
  }

  /** Durings, then timers, then exit actions. */
  function ExitScript(c: Chart, s: nat): seq<TraceEvent>
    requires s < |c.states|
  {
    var st := c.states[s];
    seq(st.durings, d requires 0 <= d < st.durings => DuringCancelled(s, d))
    + seq(|st.ownedTimers|, i requires 0 <= i < |st.ownedTimers| => TimerCancelled(s, st.ownedTimers[i]))
    + Invocations(s, st.exits, ExitAction)
    + [Exited(s)]
  }

  function Leaving(ss: seq<nat>): seq<TraceEvent> {
    seq(|ss|, i requires 0 <= i < |ss| => ExitBegan(ss[i]))
  }

  function Entering(ss: seq<nat>): seq<TraceEvent> {
    seq(|ss|, i requires 0 <= i < |ss| => EnterBegan(ss[i]))
  }

  /** The default of a freshly entered state. */
  function DefaultDue(c: Chart, s: nat): seq<TraceEvent> {
    if s < |c.states| && c.states[s].defaultTarget.Some? then
      [TransitionFired(Some(s), c.states[s].defaultTarget.value, Internal)]
    else []
  }

  /** The exits and enters of a transition; a default of the target follows if it was entered: that
      of a handler's transition inside it, that of a default after it. */
  function TransitionScript(c: Chart, path: seq<nat>, to: nat, reason: Reason): seq<TraceEvent>
    requires IsTree(c) && path != [] && Last(path) < |c.states| && to < |c.states|
  {
    var from := Last(path);
    var next := if to !in path || to == from then DefaultDue(c, to) else [];
    var done := [TransitionComplete(Some(from), to)];
    Leaving(ExitRoute(c, from, to)) + Entering(EnterRoute(c, from, to))
    + if reason.Internal? then done + next else next + done
  }

  /** What a state declares for a trigger: actions, and at the end perhaps a transition. */
  function HandlerScript(path: seq<nat>, s: nat, kinds: seq<HandlerKind>, reason: Reason): seq<TraceEvent>
    requires path != []
  {
    seq(|kinds|, i requires 0 <= i < |kinds| =>
      match kinds[i]
      case Action(a) => ActionInvoked(s, a, HandlerAction)
      case Transition(to) => TransitionFired(Some(Last(path)), to, reason))
  }

  function TriggerScript(c: Chart, path: seq<nat>, s: nat, trigger: Trigger, reason: Reason): seq<TraceEvent>
    requires path != []
  {
    if s < |c.states| then HandlerScript(path, s, Declared(c.states[s].handlers, trigger), reason) else []
  }

  /** What follows the receipt of event number `v`. */
  function ReceiptScript(c: Chart, path: seq<nat>, v: nat, last: bool): seq<TraceEvent>
    requires path != []
  {
    if last then [TerminateRequested(v)]
    else
      match Bubble(c, path, Trigger.Event(v))
      case Some(h) => if v == 0xFFFF then [EventDropped(v)]
        else [EventDelivered(h, v)] + TriggerScript(c, path, h, Trigger.Event(v), Reason.Event(v))
      case None => [EventDropped(v)]
  }

  // ----- one entry -----

  /** The action goes on to its next `emit`, or is over and leaves its context. */
  function Settle<C, E>(p: Spot<C, E>, a: Act<C, E>): Spot<C, E> {
    match a
    case Done(ctx) => p.(ctx := ctx, run := None)
    case Emit(_, _, _) => p.(run := Some(a))
  }

  /** An `emit` succeeds while the queue has room and no earlier one has failed since the flag
      was taken. */
  function FollowEmit<C, E>(env: Env<C, E>, p: Spot<C, E>, a: Act<C, E>, e: TraceEvent): Option<Spot<C, E>>
    requires a.Emit?
  {
    if !p.overflow && |p.queue| < env.queueCapacity then
      if e == EmitQueued(Number(env, a.event)) then Some(Settle(p.(queue := p.queue + [a.event]), a.onOk)) else None
    else
      if e == EmitFailed(Number(env, a.event)) then Some(Settle(p.(overflow := true), a.onFull)) else None
  }

  /** What an entry that was due does. */
  function Effect<C, E>(env: Env<C, E>, p: Spot<C, E>, e: TraceEvent): Spot<C, E>
    requires IsTree(env.chart)
  {
    var c := env.chart;
    match e
    case Started(_) => p.(due := [EnterBegan(0)] + DefaultDue(c, 0) + p.due)
    case EnterBegan(s) => if s < |c.states| then p.(due := EnterScript(c, s) + p.due) else p
    case Entered(s) => p.(path := p.path + [s])
    case ExitBegan(s) =>
      if s < |c.states| then p.(due := ExitScript(c, s) + p.due, timers := Cancelled(p.timers, s)) else p
    case Exited(_) => if p.path == [] then p else p.(path := p.path[..|p.path| - 1])
    case ActionInvoked(s, a, kind) => Settle(p, env.act(a, p.ctx, if kind.HandlerAction? then p.event else None))
    case TimerArmed(s, t, ns) => p.(timers := AfterStart(p.timers, Slots(c), s, t, ns))
    case TransitionFired(_, to, reason) =>
      if p.path != [] && Last(p.path) < |c.states| && to < |c.states| then
        p.(due := TransitionScript(c, p.path, to, reason) + p.due)
      else p
    case EventReceived(v) =>
      if p.queue != [] && p.path != [] then
        var last := c.terminate == Some(env.variant(p.queue[0]));
        p.(event := Some(p.queue[0]), queue := p.queue[1..], due := ReceiptScript(c, p.path, v, last) + p.due)
      else p
    case TimerFired(s, t) =>
      var i := NextExpired(p.timers, StateDepths(c));
      if i.Some? && p.path != [] then
        p.(timers := SwapRemove(p.timers, i.value),
           due := (if t < |c.durations| && c.durations[t].repeats then [TimerArmed(s, t, FullTime(c, t))] else [])
             + TriggerScript(c, p.path, s, Duration(t), Reason.Timer(s, t)) + p.due)
      else p
    case TerminateRequested(_) => p.(due := Leaving(Reverse(p.path)) + [Terminated] + p.due)
    case Terminated => p.(ended := true, queue := [])
    case _ => p
  }

  function Follow<C, E>(env: Env<C, E>, p: Spot<C, E>, e: TraceEvent): Option<Spot<C, E>>
    requires IsTree(env.chart)
  {
    if p.run.Some? then
      if p.run.value.Emit? then FollowEmit(env, p, p.run.value, e) else None
    else if p.due != [] && e == p.due[0] then Some(Effect(env, p.(due := p.due[1..]), e))
    else None
  }

  // ----- one call -----

  /** A call finds the machine at rest. Time passing makes at most one thing due: the start, the
      next expired timer, or the receipt of the event heading the queue. */
  function Obey<C, E>(env: Env<C, E>, p: Spot<C, E>, input: Input<E>): Option<Spot<C, E>>
    requires IsTree(env.chart)
  {
    if !IsResting(p) then None
    else
      match input
      case SendEvent(e) =>
        Some(if !p.ended && |p.queue| < env.queueCapacity then p.(queue := p.queue + [e]) else p)
      case TakeFlag => Some(p.(overflow := false))
      case Advance(d) =>
        if p.ended then Some(p)
        else if p.path == [] then Some(p.(event := None, due := [TraceEvent.Started(env.chart.hash)]))
        else
          var ts := Decremented(p.timers, d);
          var due := match NextExpired(ts, StateDepths(env.chart))
            case Some(i) => [TimerFired(ts[i].state, ts[i].trigger)]
            case None => if p.queue == [] then [] else [EventReceived(Number(env, p.queue[0]))];
          Some(p.(event := None, timers := ts, due := due))
  }

  /** A whole run as seen from outside: calls, and the entries each of them adds to the journal. */
  datatype Mark<E> = Call(input: Input<E>) | Shown(entry: TraceEvent)

  function Play<C, E>(env: Env<C, E>, p: Spot<C, E>, mark: Mark<E>): Option<Spot<C, E>>
    requires IsTree(env.chart)
  {
    match mark
    case Call(input) => Obey(env, p, input)
    case Shown(e) => Follow(env, p, e)
  }

  function PlayAll<C, E>(env: Env<C, E>, p: Spot<C, E>, marks: seq<Mark<E>>): Option<Spot<C, E>>
    requires IsTree(env.chart)
    decreases |marks|
  {
    if marks == [] then Some(p)
    else
      match Play(env, p, marks[0])
      case None => None
      case Some(q) => PlayAll(env, q, marks[1..])
  }

  function Begin<C, E>(ctx: C): Spot<C, E> {
    Spot(ctx, [], [], [], false, false, [], None, None)
  }

  // ----- only one thing can come next -----

  /** At rest only a call can come; otherwise exactly one journal entry. */
  lemma NextIsFixed<C, E>(env: Env<C, E>, p: Spot<C, E>, a: Mark<E>, b: Mark<E>)
    requires IsTree(env.chart) && Play(env, p, a).Some? && Play(env, p, b).Some?
    ensures IsResting(p) <==> a.Call?
    ensures a.Call? <==> b.Call?
    ensures a.Shown? ==> a == b
  {
  }

  /** The calls of a transcript. */
  function Calls<E>(marks: seq<Mark<E>>): seq<Input<E>> {
    if marks == [] then []
    else (if marks[0].Call? then [marks[0].input] else []) + Calls(marks[1..])
  }

  /** The calls and the initial context determine everything: two transcripts with the same calls,
      both played to rest, are the same. */
  lemma {:induction false} TranscriptIsUnique<C, E>(env: Env<C, E>, p: Spot<C, E>, a: seq<Mark<E>>, b: seq<Mark<E>>)
    requires IsTree(env.chart) && Calls(a) == Calls(b)
    requires PlayAll(env, p, a).Some? && IsResting(PlayAll(env, p, a).value)
    requires PlayAll(env, p, b).Some? && IsResting(PlayAll(env, p, b).value)
    ensures a == b
    decreases |a| + |b|
  {
    hide Play;
    if a == [] {
      if b != [] { RestingTakesCalls(env, p, b[0]); }
    } else if b == [] {
      RestingTakesCalls(env, p, a[0]);
    } else {
      NextIsFixed(env, p, a[0], b[0]);
      assert a[0] == b[0] by { if a[0].Call? { assert Calls(a)[0] == Calls(b)[0]; } }
      var first := if a[0].Call? then [a[0].input] else [];
      assert Calls(a) == first + Calls(a[1..]) && Calls(b) == first + Calls(b[1..]);
      assert Calls(a)[|first|..] == Calls(a[1..]) && Calls(b)[|first|..] == Calls(b[1..]);
      TranscriptIsUnique(env, Play(env, p, a[0]).value, a[1..], b[1..]);
      assert a == [a[0]] + a[1..] && b == [b[0]] + b[1..];
    }
  }

  lemma RestingTakesCalls<C, E>(env: Env<C, E>, p: Spot<C, E>, a: Mark<E>)
    requires IsTree(env.chart) && IsResting(p) && Play(env, p, a).Some?
    ensures a.Call?
  {
  }

  lemma {:induction false} PlayAppend<C, E>(env: Env<C, E>, p: Spot<C, E>, a: seq<Mark<E>>, b: seq<Mark<E>>)
    requires IsTree(env.chart)
    ensures PlayAll(env, p, a + b) ==
      match PlayAll(env, p, a) case None => None case Some(q) => PlayAll(env, q, b)
    decreases |a|
  {
    hide Play;
    if a == [] {
      assert a + b == b;
    } else {
      assert (a + b)[1..] == a[1..] + b;
      if Play(env, p, a[0]).Some? { PlayAppend(env, Play(env, p, a[0]).value, a[1..], b); }
    }
  }
}
