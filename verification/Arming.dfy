/** Every timer of an active state has been armed: what the journal says of it last. */
module Arming {
  import opened Wrappers
  import opened Charts
  import opened Tree
  import opened Handlers
  import opened Validate
  import opened Timers
  import opened Dispatch
  import opened Trace
  import opened Reference
  import opened TimerFacts
  import opened Keeps
  import opened Runs
  import opened Theorems

  /** The event starts or ends timer `t` of state `s`. */
  predicate IsAbout(e: TraceEvent, s: nat, t: nat) {
    match e
    case TimerArmed(s', t', _) => s == s' && t == t'
    case TimerFired(s', t') => s == s' && t == t'
    case TimerCancelled(s', t') => s == s' && t == t'
    case _ => false
  }

  function LastAbout(journal: seq<TraceEvent>, s: nat, t: nat): Option<TraceEvent> {
    if journal == [] then None
    else if IsAbout(Last(journal), s, t) then Some(Last(journal))
    else LastAbout(journal[..|journal| - 1], s, t)
  }

  lemma AboutOne(journal: seq<TraceEvent>, e: TraceEvent, s: nat, t: nat)
    ensures LastAbout(journal + [e], s, t) == if IsAbout(e, s, t) then Some(e) else LastAbout(journal, s, t)
  {
    assert (journal + [e])[..|journal|] == journal;
  }

  lemma {:induction false} AboutNone(journal: seq<TraceEvent>, es: seq<TraceEvent>, s: nat, t: nat)
    requires forall i :: 0 <= i < |es| ==> !IsAbout(es[i], s, t)
    ensures LastAbout(journal + es, s, t) == LastAbout(journal, s, t)
  {
    if es == [] {
      assert journal + es == journal;
    } else {
      var n := |es| - 1;
      AboutNone(journal, es[..n], s, t);
      AboutOne(journal + es[..n], es[n], s, t);
      assert journal + es == journal + es[..n] + [es[n]];
    }
  }

  /** The timer was armed with its full duration and not touched since, or has fired once. */
  predicate IsLive(c: Chart, last: Option<TraceEvent>, s: nat, t: nat) {
    || last == Some(TimerArmed(s, t, FullTime(c, t)))
    || (last == Some(TimerFired(s, t)) && (t < |c.durations| ==> !c.durations[t].repeats))
  }

  predicate Owns(c: Chart, s: nat, t: nat) {
    s < |c.states| && t in c.states[s].ownedTimers
  }

  predicate Tracked<C, E>(env: Env<C, E>, m: Config<C, E>, s: nat, t: nat) {
    s in m.path && Owns(env.chart, s, t) ==> IsLive(env.chart, LastAbout(m.journal, s, t), s, t)
  }

  // ----- operations that keep the active path -----

  lemma {:induction false} RunActAbout<C, E>(env: Env<C, E>, m: Config<C, E>, a: Act<C, E>, s: nat, t: nat)
    ensures LastAbout(RunAct(env, m, a).journal, s, t) == LastAbout(m.journal, s, t)
    decreases a
  {
    match a {
      case Done(_) =>
      case Emit(e, onOk, onFull) =>
        AboutOne(m.journal, EmitQueued(EventId(env, e)), s, t);
        AboutOne(m.journal, EmitFailed(EventId(env, e)), s, t);
        RunActAbout(env, Log(Push(m, e), [EmitQueued(EventId(env, e))]), onOk, s, t);
        RunActAbout(env, Log(m.(overflow := true), [EmitFailed(EventId(env, e))]), onFull, s, t);
    }
  }

  lemma InvokeAbout<C, E>(env: Env<C, E>, m: Config<C, E>, at: nat, a: nat, kind: ActionKind, ev: Option<E>,
      s: nat, t: nat)
    ensures LastAbout(Invoke(env, m, at, a, kind, ev).journal, s, t) == LastAbout(m.journal, s, t)
  {
    AboutOne(m.journal, ActionInvoked(at, a, kind), s, t);
    RunActAbout(env, Log(m, [ActionInvoked(at, a, kind)]), env.act(a, m.ctx, ev), s, t);
  }

  lemma {:induction false} InvokeAllAbout<C, E>(env: Env<C, E>, m: Config<C, E>, at: nat, ids: seq<nat>,
      kind: ActionKind, ev: Option<E>, s: nat, t: nat)
    ensures LastAbout(InvokeAll(env, m, at, ids, kind, ev).journal, s, t) == LastAbout(m.journal, s, t)
    decreases |ids|
  {
    if ids != [] {
      InvokeAbout(env, m, at, ids[0], kind, ev, s, t);
      InvokeAllAbout(env, Invoke(env, m, at, ids[0], kind, ev), at, ids[1..], kind, ev, s, t);
    }
  }

  lemma ArmAbout<C, E>(env: Env<C, E>, m: Config<C, E>, at: nat, tid: nat, s: nat, t: nat)
    ensures LastAbout(Arm(env, m, at, tid).journal, s, t) ==
      if at == s && tid == t then Some(TimerArmed(s, t, FullTime(env.chart, t)))
      else LastAbout(m.journal, s, t)
  {
    AboutOne(m.journal, TimerArmed(at, tid, FullTime(env.chart, tid)), s, t);
  }

  lemma {:induction false} ArmAllAbout<C, E>(env: Env<C, E>, m: Config<C, E>, at: nat, tids: seq<nat>, s: nat, t: nat)
    ensures LastAbout(ArmAll(env, m, at, tids).journal, s, t) ==
      if at == s && t in tids then Some(TimerArmed(s, t, FullTime(env.chart, t)))
      else LastAbout(m.journal, s, t)
    decreases |tids|
  {
    if tids != [] {
      ArmAbout(env, m, at, tids[0], s, t);
      ArmAllAbout(env, Arm(env, m, at, tids[0]), at, tids[1..], s, t);
    }
  }

  // ----- states in and out -----

  /** Entering a state arms its timers, and says nothing of any other. */
  lemma EnterAbout<C, E>(env: Env<C, E>, m: Config<C, E>, at: nat, s: nat, t: nat)
    requires at < |env.chart.states|
    ensures LastAbout(Enter(env, m, at).journal, s, t) ==
      if at == s && Owns(env.chart, s, t) then Some(TimerArmed(s, t, FullTime(env.chart, t)))
      else LastAbout(m.journal, s, t)
  {
    hide InvokeAll, ArmAll, LastAbout;
    var st := env.chart.states[at];
    var began := Log(m, [EnterBegan(at)]);
    AboutOne(m.journal, EnterBegan(at), s, t);
    InvokeAllAbout(env, began, at, st.entries, EntryAction, None, s, t);
    var acted := InvokeAll(env, began, at, st.entries, EntryAction, None);
    ArmAllAbout(env, acted, at, st.ownedTimers, s, t);
    var armed := ArmAll(env, acted, at, st.ownedTimers);
    AboutNone(armed.journal, DuringsStarted(at, st.durings), s, t);
    AboutOne(armed.journal + DuringsStarted(at, st.durings), Entered(at), s, t);
  }

  /** Exiting a state says nothing of other states' timers. */
  lemma ExitAbout<C, E>(env: Env<C, E>, m: Config<C, E>, s: nat, t: nat)
    requires m.path != [] && Last(m.path) < |env.chart.states| && Last(m.path) != s
    ensures LastAbout(Exit(env, m).journal, s, t) == LastAbout(m.journal, s, t)
  {
    hide InvokeAll, LastAbout;
    var at := Last(m.path);
    var st := env.chart.states[at];
    var journal := m.journal + [ExitBegan(at)];
    AboutOne(m.journal, ExitBegan(at), s, t);
    AboutNone(journal, DuringsCancelled(at, st.durings), s, t);
    AboutNone(journal + DuringsCancelled(at, st.durings), TimersCancelled(at, st.ownedTimers), s, t);
    InvokeAllAbout(env, Stop(env, m), at, st.exits, ExitAction, None, s, t);
    AboutOne(InvokeAll(env, Stop(env, m), at, st.exits, ExitAction, None).journal, Exited(at), s, t);
  }

  predicate IsDistinct(path: seq<nat>) {
    forall i, j :: 0 <= i < j < |path| ==> path[i] != path[j]
  }

  lemma {:induction false} ExitToTracked<C, E>(env: Env<C, E>, m: Config<C, E>, k: nat, s: nat, t: nat)
    requires k <= |m.path| && PathInChart(env.chart, m.path) && IsDistinct(m.path) && Tracked(env, m, s, t)
    ensures Tracked(env, ExitTo(env, m, k), s, t)
    decreases |m.path|
  {
    hide LastAbout, IsLive;
    if |m.path| > k {
      if s != Last(m.path) { ExitAbout(env, m, s, t); }
      ExitToTracked(env, Exit(env, m), k, s, t);
    }
  }

  lemma {:induction false} EnterAllTracked<C, E>(env: Env<C, E>, m: Config<C, E>, ss: seq<nat>, s: nat, t: nat)
    requires PathInChart(env.chart, ss) && Tracked(env, m, s, t)
    ensures Tracked(env, EnterAll(env, m, ss), s, t)
    decreases |ss|
  {
    hide LastAbout;
    if ss != [] {
      EnterAbout(env, m, ss[0], s, t);
      EnterAllTracked(env, Enter(env, m, ss[0]), ss[1..], s, t);
    }
  }

  lemma TravelTracked<C, E>(env: Env<C, E>, m: Config<C, E>, target: nat, s: nat, t: nat)
    requires IsTree(env.chart) && Active(env, m) && target < |env.chart.states| && Tracked(env, m, s, t)
    ensures Tracked(env, Travel(env, m, target), s, t)
  {
    hide ExitTo, EnterAll, LastAbout, IsLive, Tracked;
    var k := Kept(env.chart, m.path, target);
    Rejoin(env.chart, m.path, target);
    forall i, j | 0 <= i < j < |m.path| ensures m.path[i] != m.path[j] {
      RootPathDistinct(env.chart, Last(m.path), i, j);
    }
    ExitToTracked(env, m, k, s, t);
    EnterAllTracked(env, ExitTo(env, m, k), RootPath(env.chart, target)[k..], s, t);
  }

  // ----- transitions -----

  lemma LogTracked<C, E>(env: Env<C, E>, m: Config<C, E>, e: TraceEvent, s: nat, t: nat)
    requires Tracked(env, m, s, t) && !IsAbout(e, s, t)
    ensures Tracked(env, Log(m, [e]), s, t)
  {
    AboutOne(m.journal, e, s, t);
  }

  lemma DefaultTracked<C, E>(env: Env<C, E>, m: Config<C, E>, target: nat, s: nat, t: nat)
    requires IsTree(env.chart) && Active(env, m) && target < |env.chart.states| && Tracked(env, m, s, t)
    ensures Tracked(env, DefaultFired(env, m, target), s, t)
  {
    hide Travel, Tracked;
    var from := Some(Last(m.path));
    var fired := Log(m, [TransitionFired(from, target, Reason.Internal)]);
    LogTracked(env, m, TransitionFired(from, target, Reason.Internal), s, t);
    TravelTracked(env, fired, target, s, t);
    LogTracked(env, Travel(env, fired, target), TransitionComplete(from, target), s, t);
  }

  lemma {:induction false} FollowTracked<C, E>(env: Env<C, E>, m: Config<C, E>, s: nat, t: nat)
    requires Ready(env.chart) && Active(env, m) && Tracked(env, m, s, t)
    ensures Tracked(env, FollowDefaults(env, m), s, t)
    decreases RankOf(env.chart)[Last(m.path)]
  {
    hide DefaultFired, Tracked, RootPath, EntersFrom;
    DefaultLowersRank(env.chart, Last(m.path));
    match Next(env.chart, Last(m.path)) {
      case None =>
      case Some(target) =>
        FollowStep(env, m, target);
        DefaultTracked(env, m, target, s, t);
        if EntersFrom(env.chart, m.path, target) { FollowTracked(env, DefaultFired(env, m, target), s, t); }
    }
  }

  lemma FireTracked<C, E>(env: Env<C, E>, m: Config<C, E>, target: nat, reason: Reason, s: nat, t: nat)
    requires Ready(env.chart) && Active(env, m) && target < |env.chart.states| && Tracked(env, m, s, t)
    ensures Tracked(env, Fire(env, m, target, reason), s, t)
  {
    hide Travel, FollowDefaults, Tracked, RootPath, EntersFrom;
    var from := Some(Last(m.path));
    var fired := Log(m, [TransitionFired(from, target, reason)]);
    LogTracked(env, m, TransitionFired(from, target, reason), s, t);
    TravelTracked(env, fired, target, s, t);
    var there := Travel(env, fired, target);
    FollowTracked(env, there, s, t);
    var rested := if EntersFrom(env.chart, m.path, target) then FollowDefaults(env, there) else there;
    LogTracked(env, rested, TransitionComplete(from, target), s, t);
  }

  // ----- triggers -----

  lemma {:induction false} RunDeclaredTracked<C, E>(env: Env<C, E>, m: Config<C, E>, at: nat,
      kinds: seq<HandlerKind>, ev: Option<E>, reason: Reason, s: nat, t: nat)
    requires Ready(env.chart) && Active(env, m) && Tracked(env, m, s, t)
    requires forall i :: 0 <= i < |kinds| && kinds[i].Transition? ==> kinds[i].target < |env.chart.states|
    ensures Tracked(env, RunDeclared(env, m, at, kinds, ev, reason), s, t)
    decreases |kinds|
  {
    hide Fire, Invoke, LastAbout, IsLive;
    if kinds != [] {
      match kinds[0] {
        case Action(a) =>
          InvokeAbout(env, m, at, a, HandlerAction, ev, s, t);
          RunDeclaredTracked(env, Invoke(env, m, at, a, HandlerAction, ev), at, kinds[1..], ev, reason, s, t);
        case Transition(target) =>
          FireTracked(env, m, target, reason, s, t);
          RunDeclaredTracked(env, Fire(env, m, target, reason), at, kinds[1..], ev, reason, s, t);
      }
    }
  }

  lemma RunTriggerTracked<C, E>(env: Env<C, E>, m: Config<C, E>, at: nat, trigger: Trigger, ev: Option<E>,
      reason: Reason, s: nat, t: nat)
    requires Ready(env.chart) && Active(env, m) && Tracked(env, m, s, t) && at < |env.chart.states|
    ensures Tracked(env, RunTrigger(env, m, at, trigger, ev, reason), s, t)
  {
    assert StateOk(env.chart, at);
    DeclaredInChart(env.chart, env.chart.states[at].handlers, trigger);
    RunDeclaredTracked(env, m, at, Declared(env.chart.states[at].handlers, trigger), ev, reason, s, t);
  }

  lemma DeliverTracked<C, E>(env: Env<C, E>, m: Config<C, E>, e: E, s: nat, t: nat)
    requires Ready(env.chart) && Active(env, m) && Tracked(env, m, s, t)
    ensures Tracked(env, Deliver(env, m, e), s, t)
  {
    hide RunTrigger, Tracked;
    var id := EventId(env, e);
    LogTracked(env, m, EventDropped(id), s, t);
    if id != U16_MAX && Bubble(env.chart, m.path, Trigger.Event(id)).Some? {
      var h := Bubble(env.chart, m.path, Trigger.Event(id)).value;
      LogTracked(env, m, EventDelivered(h, id), s, t);
      RunTriggerTracked(env, Log(m, [EventDelivered(h, id)]), h, Trigger.Event(id), Some(e), Reason.Event(id), s, t);
    }
  }

  /** A timer that fires is armed again at once if it repeats. */
  lemma FireTimerTracked<C, E>(env: Env<C, E>, m: Config<C, E>, i: nat, s: nat, t: nat)
    requires Ready(env.chart) && Active(env, m) && Tracked(env, m, s, t) && i < |m.timers|
    ensures Tracked(env, FireTimer(env, m, i), s, t)
  {
    hide RunTrigger, LastAbout;
    var at, tid := m.timers[i].state, m.timers[i].trigger;
    var fired := Log(m.(timers := SwapRemove(m.timers, i)), [TimerFired(at, tid)]);
    AboutOne(m.journal, TimerFired(at, tid), s, t);
    ArmAbout(env, fired, at, tid, s, t);
    var ready := if Repeats(env.chart, tid) then Arm(env, fired, at, tid) else fired;
    if at < |env.chart.states| {
      RunTriggerTracked(env, ready, at, Duration(tid), None, Reason.Timer(at, tid), s, t);
    }
  }

  lemma ReceiveTracked<C, E>(env: Env<C, E>, m: Config<C, E>, s: nat, t: nat)
    requires Ready(env.chart) && Active(env, m) && !m.terminated && m.queue != [] && Tracked(env, m, s, t)
    ensures Tracked(env, Receive(env, m).0, s, t)
  {
    hide Deliver, Shutdown, LastAbout, IsLive;
    var id := EventId(env, m.queue[0]);
    AboutOne(m.journal, EventReceived(id), s, t);
    if env.chart.terminate != Some(env.variant(m.queue[0])) {
      DeliverTracked(env, Log(Take(m), [EventReceived(id)]), m.queue[0], s, t);
    }
  }

  lemma StartTracked<C, E>(env: Env<C, E>, m: Config<C, E>, s: nat, t: nat)
    requires Ready(env.chart) && m.path == []
    ensures Tracked(env, Start(env, m), s, t)
  {
    hide Enter, FollowDefaults, LastAbout;
    var began := Log(m, [Started(env.chart.hash)]);
    EnterAbout(env, began, 0, s, t);
    FollowTracked(env, Enter(env, began, 0), s, t);
  }

  // ----- whole runs -----

  lemma StepTracked<C, E>(env: Env<C, E>, m: Config<C, E>, d: nat, s: nat, t: nat)
    requires Ready(env.chart) && Resting(env, m) && Tracked(env, m, s, t)
    ensures Tracked(env, Step(env, m, d).0, s, t)
  {
    hide FireTimer, Receive, Start, LastAbout, IsLive;
    if !m.terminated {
      var now := m.(timers := Decremented(m.timers, d));
      if m.path == [] {
        StartTracked(env, m, s, t);
      } else {
        match NextExpired(now.timers, Depths(env.chart)) {
          case Some(i) => FireTimerTracked(env, now, i, s, t);
          case None => if m.queue != [] { ReceiveTracked(env, now, s, t); }
        }
      }
    }
  }

  lemma CallTracked<C, E>(env: Env<C, E>, m: Config<C, E>, input: Input<E>, s: nat, t: nat)
    requires Ready(env.chart) && Resting(env, m) && Tracked(env, m, s, t)
    ensures Tracked(env, Apply(env, m, input), s, t)
  {
    hide Step, LastAbout, IsLive;
    if input.Advance? { StepTracked(env, m, input.elapsed, s, t); }
  }

  /** In every run, each timer owned by an active state was armed with its full duration and not
      touched since, or it does not repeat and has fired since. */
  lemma {:induction false} OwnedTimersWereArmed<C, E>(env: Env<C, E>, ctx: C, inputs: seq<Input<E>>, s: nat, t: nat)
    requires Ready(env.chart)
    ensures Tracked(env, Run(env, ctx, inputs), s, t)
    decreases |inputs|
  {
    hide Apply, LastAbout, IsLive;
    if inputs != [] {
      var n := |inputs| - 1;
      OwnedTimersWereArmed(env, ctx, inputs[..n], s, t);
      CallTracked(env, Run(env, ctx, inputs[..n]), inputs[n], s, t);
    }
  }

  lemma {:induction false} ClockRunsSinceArmed(log: seq<Item>, s: nat, t: nat)
    ensures var last := LastAbout(JournalOf(log), s, t);
      ReadLog(log, s, t).clock.Some? <==> last.Some? && last.value.TimerArmed?
  {
    if log != [] {
      var front, item := log[..|log| - 1], Last(log);
      ClockRunsSinceArmed(front, s, t);
      if item.Seen? {
        AboutOne(JournalOf(front), item.e, s, t);
      } else {
        NoMoves(JournalOf(front));
      }
    }
  }

  /** In every run of a chart whose root chains fit the table, each timer owned by an active state
      has its entry, unless it does not repeat and has fired since it was last armed. */
  lemma OwnedTimersRun<C, E>(env: Env<C, E>, ctx: C, inputs: seq<Input<E>>, s: nat, t: nat)
    requires Ready(env.chart) && ChainsFit(env.chart)
    requires s in Run(env, ctx, inputs).path && Owns(env.chart, s, t)
    ensures var c, m := env.chart, Run(env, ctx, inputs);
      var last := LastAbout(m.journal, s, t);
      && t < |c.durations|
      && if HasKey(m.timers, s, t) then last == Some(TimerArmed(s, t, c.durations[t].ns % 0x1_0000_0000_0000_0000))
         else last == Some(TimerFired(s, t)) && !c.durations[t].repeats
  {
    hide ReadLog, RunLog, ApplyAll, LastAbout;
    assert StateOk(env.chart, s);
    OwnedTimersWereArmed(env, ctx, inputs, s, t);
    RunReads(env, ctx, inputs, s, t);
    TimerTableIsExact(env, ctx, inputs, s, t);
    ClockRunsSinceArmed(RunLog(env, ctx, inputs), s, t);
  }

  // ----- firing -----

  /** State `s` declares no transition for timer `t`. */
  predicate OnlyActs(c: Chart, s: nat, t: nat)
    requires s < |c.states|
  {
    forall j :: 0 <= j < |c.states[s].handlers| && c.states[s].handlers[j].trigger == Duration(t) ==>
      c.states[s].handlers[j].kind.Action?
  }

  lemma {:induction false} ActionsKeepTimers<C, E>(env: Env<C, E>, m: Config<C, E>, s: nat, kinds: seq<HandlerKind>,
      ev: Option<E>, reason: Reason)
    requires Ready(env.chart) && Active(env, m) && forall i :: 0 <= i < |kinds| ==> kinds[i].Action?
    ensures RunDeclared(env, m, s, kinds, ev, reason).timers == m.timers
    decreases |kinds|
  {
    hide Invoke;
    if kinds != [] {
      ActionsKeepTimers(env, Invoke(env, m, s, kinds[0].action, HandlerAction, ev), s, kinds[1..], ev, reason);
    }
  }

  lemma FireTimerTable<C, E>(env: Env<C, E>, m: Config<C, E>, i: nat)
    requires Ready(env.chart) && Active(env, m) && i < |m.timers| && TimersOk(env.chart, m.timers, m.path)
    requires m.timers[i].state < |env.chart.states| && m.timers[i].trigger < |env.chart.durations|
    requires OnlyActs(env.chart, m.timers[i].state, m.timers[i].trigger)
    ensures var s, t := m.timers[i].state, m.timers[i].trigger;
      FireTimer(env, m, i).timers == SwapRemove(m.timers, i)
        + if env.chart.durations[t].repeats then [TimerEntry(s, t, FullTime(env.chart, t))] else []
  {
    hide RunDeclared, RootPath;
    var c, s, t := env.chart, m.timers[i].state, m.timers[i].trigger;
    var fired := Log(m.(timers := SwapRemove(m.timers, i)), [TimerFired(s, t)]);
    var ready := if Repeats(c, t) then Arm(env, fired, s, t) else fired;
    var at := DeclaredAt(c.states[s].handlers, Duration(t));
    assert EntryOwned(c, m.timers, m.path, i) && StateOk(c, s);
    DeclaredInChart(c, c.states[s].handlers, Duration(t));
    SwapRemoveOk(c, m.timers, m.path, i);
    StartFresh(c, fired.timers, m.path, s, t, DurationOf(c, t));
    NoMoves(fired.timers);
    ActionsKeepTimers(env, ready, s, Declared(c.states[s].handlers, Duration(t)), None, Reason.Timer(s, t));
  }

  /** A step that fires a timer whose handlers are all actions changes the table, beyond letting time
      pass, in just one way: the entry is taken out, and comes back at full duration exactly when
      the chart has the timer repeat. */
  lemma FiredTimerComesBackIffItRepeats<C, E>(env: Env<C, E>, ctx: C, inputs: seq<Input<E>>, d: nat, i: nat)
    requires Ready(env.chart) && Run(env, ctx, inputs).path != []
    requires IsNext(Decremented(Run(env, ctx, inputs).timers, d), Depths(env.chart), i)
    requires var e := Run(env, ctx, inputs).timers[i];
      e.state < |env.chart.states| ==> OnlyActs(env.chart, e.state, e.trigger)
    ensures var c, m := env.chart, Run(env, ctx, inputs);
      var s, t := m.timers[i].state, m.timers[i].trigger;
      && t < |c.durations|
      && Run(env, ctx, inputs + [Advance(d)]).timers == SwapRemove(Decremented(m.timers, d), i)
         + if c.durations[t].repeats then [TimerEntry(s, t, c.durations[t].ns % 0x1_0000_0000_0000_0000)] else []
  {
    hide ReadLog, RunLog, ApplyAll, ClockOk, FireTimer, SwapRemove, OnlyActs;
    var c, m := env.chart, Run(env, ctx, inputs);
    RunReads(env, ctx, inputs, 0, 0);
    assert EntryOwned(c, m.timers, m.path, i) && StateOk(c, m.timers[i].state);
    RunSnoc(env, ctx, inputs, Advance(d));
    NextExpiredIsDeepest(Decremented(m.timers, d), Depths(c));
    DecrementedOk(c, m.timers, m.path, d);
    FireTimerTable(env, m.(timers := Decremented(m.timers, d)), i);
  }
}
