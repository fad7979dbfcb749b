/** Why a machine rests where it does: the transition fired last, read off the journal. */
module Settling {
  import opened Wrappers
  import opened Charts
  import opened Tree
  import opened Handlers
  import opened Validate
  import opened Timers
  import opened Dispatch
  import opened Trace
  import opened Reference
  import opened RestingStates
  import Routes

  /** Source and target of the transition fired last. */
  function LastFired(journal: seq<TraceEvent>): Option<(Option<nat>, nat)> {
    if journal == [] then None
    else
      match Last(journal)
      case TransitionFired(from, to, _) => Some((from, to))
      case _ => LastFired(journal[..|journal| - 1])
  }

  lemma FiredOne(journal: seq<TraceEvent>, e: TraceEvent)
    ensures LastFired(journal + [e]) == if e.TransitionFired? then Some((e.from, e.to)) else LastFired(journal)
  {
    assert (journal + [e])[..|journal|] == journal;
  }

  lemma {:induction false} FiredNone(journal: seq<TraceEvent>, es: seq<TraceEvent>)
    requires forall i :: 0 <= i < |es| ==> !es[i].TransitionFired?
    ensures LastFired(journal + es) == LastFired(journal)
  {
    if es == [] {
      assert journal + es == journal;
    } else {
      var n := |es| - 1;
      FiredNone(journal, es[..n]);
      FiredOne(journal + es[..n], es[n]);
      assert journal + es == journal + es[..n] + [es[n]];
    }
  }

  // ----- operations that fire nothing -----

  lemma {:induction false} RunActFires<C, E>(env: Env<C, E>, m: Config<C, E>, a: Act<C, E>)
    ensures LastFired(RunAct(env, m, a).journal) == LastFired(m.journal)
    decreases a
  {
    match a {
      case Done(_) =>
      case Emit(e, onOk, onFull) =>
        FiredOne(m.journal, EmitQueued(EventId(env, e)));
        FiredOne(m.journal, EmitFailed(EventId(env, e)));
        RunActFires(env, Log(Push(m, e), [EmitQueued(EventId(env, e))]), onOk);
        RunActFires(env, Log(m.(overflow := true), [EmitFailed(EventId(env, e))]), onFull);
    }
  }

  lemma InvokeFires<C, E>(env: Env<C, E>, m: Config<C, E>, s: nat, a: nat, kind: ActionKind, ev: Option<E>)
    ensures LastFired(Invoke(env, m, s, a, kind, ev).journal) == LastFired(m.journal)
  {
    FiredOne(m.journal, ActionInvoked(s, a, kind));
    RunActFires(env, Log(m, [ActionInvoked(s, a, kind)]), env.act(a, m.ctx, ev));
  }

  lemma {:induction false} InvokeAllFires<C, E>(env: Env<C, E>, m: Config<C, E>, s: nat, ids: seq<nat>,
      kind: ActionKind, ev: Option<E>)
    ensures LastFired(InvokeAll(env, m, s, ids, kind, ev).journal) == LastFired(m.journal)
    decreases |ids|
  {
    if ids != [] {
      InvokeFires(env, m, s, ids[0], kind, ev);
      InvokeAllFires(env, Invoke(env, m, s, ids[0], kind, ev), s, ids[1..], kind, ev);
    }
  }

  lemma ArmFires<C, E>(env: Env<C, E>, m: Config<C, E>, s: nat, t: nat)
    ensures LastFired(Arm(env, m, s, t).journal) == LastFired(m.journal)
  {
    FiredOne(m.journal, TimerArmed(s, t, AsU64(DurationOf(env.chart, t))));
  }

  lemma {:induction false} ArmAllFires<C, E>(env: Env<C, E>, m: Config<C, E>, s: nat, ts: seq<nat>)
    ensures LastFired(ArmAll(env, m, s, ts).journal) == LastFired(m.journal)
    decreases |ts|
  {
    if ts != [] {
      ArmFires(env, m, s, ts[0]);
      ArmAllFires(env, Arm(env, m, s, ts[0]), s, ts[1..]);
    }
  }

  lemma EnterFires<C, E>(env: Env<C, E>, m: Config<C, E>, s: nat)
    requires s < |env.chart.states|
    ensures LastFired(Enter(env, m, s).journal) == LastFired(m.journal)
  {
    hide InvokeAll, ArmAll, LastFired;
    var st := env.chart.states[s];
    var began := Log(m, [EnterBegan(s)]);
    FiredOne(m.journal, EnterBegan(s));
    InvokeAllFires(env, began, s, st.entries, EntryAction, None);
    var acted := InvokeAll(env, began, s, st.entries, EntryAction, None);
    ArmAllFires(env, acted, s, st.ownedTimers);
    var armed := ArmAll(env, acted, s, st.ownedTimers);
    FiredNone(armed.journal, DuringsStarted(s, st.durings));
    FiredOne(armed.journal + DuringsStarted(s, st.durings), Entered(s));
  }

  lemma ExitFires<C, E>(env: Env<C, E>, m: Config<C, E>)
    requires m.path != [] && Last(m.path) < |env.chart.states|
    ensures LastFired(Exit(env, m).journal) == LastFired(m.journal)
  {
    hide InvokeAll, LastFired;
    var s := Last(m.path);
    var st := env.chart.states[s];
    var began := Log(Log(Log(m, [ExitBegan(s)]), DuringsCancelled(s, st.durings)), TimersCancelled(s, st.ownedTimers));
    FiredOne(m.journal, ExitBegan(s));
    FiredNone(m.journal + [ExitBegan(s)], DuringsCancelled(s, st.durings));
    FiredNone(m.journal + [ExitBegan(s)] + DuringsCancelled(s, st.durings), TimersCancelled(s, st.ownedTimers));
    var stopped := Stop(env, m);
    InvokeAllFires(env, stopped, s, st.exits, ExitAction, None);
    FiredOne(InvokeAll(env, stopped, s, st.exits, ExitAction, None).journal, Exited(s));
  }

  lemma {:induction false} ExitToFires<C, E>(env: Env<C, E>, m: Config<C, E>, k: nat)
    requires k <= |m.path| && PathInChart(env.chart, m.path)
    ensures LastFired(ExitTo(env, m, k).journal) == LastFired(m.journal)
    decreases |m.path|
  {
    if |m.path| > k {
      ExitFires(env, m);
      ExitToFires(env, Exit(env, m), k);
    }
  }

  lemma {:induction false} EnterAllFires<C, E>(env: Env<C, E>, m: Config<C, E>, ss: seq<nat>)
    requires PathInChart(env.chart, ss)
    ensures LastFired(EnterAll(env, m, ss).journal) == LastFired(m.journal)
    decreases |ss|
  {
    if ss != [] {
      EnterFires(env, m, ss[0]);
      EnterAllFires(env, Enter(env, m, ss[0]), ss[1..]);
    }
  }

  lemma TravelFires<C, E>(env: Env<C, E>, m: Config<C, E>, target: nat)
    requires IsTree(env.chart) && m.path != [] && PathInChart(env.chart, m.path) && target < |env.chart.states|
    ensures LastFired(Travel(env, m, target).journal) == LastFired(m.journal)
  {
    hide ExitTo, EnterAll, LastFired;
    var k := Kept(env.chart, m.path, target);
    Rejoin(env.chart, m.path, target);
    ExitToFires(env, m, k);
    EnterAllFires(env, ExitTo(env, m, k), RootPath(env.chart, target)[k..]);
  }

  // ----- transitions -----

  lemma DefaultFires<C, E>(env: Env<C, E>, m: Config<C, E>, target: nat)
    requires IsTree(env.chart) && m.path != [] && PathInChart(env.chart, m.path) && target < |env.chart.states|
    ensures LastFired(DefaultFired(env, m, target).journal) == Some((Some(Last(m.path)), target))
  {
    hide Travel, LastFired;
    var from := Some(Last(m.path));
    var fired := Log(m, [TransitionFired(from, target, Reason.Internal)]);
    FiredOne(m.journal, TransitionFired(from, target, Reason.Internal));
    TravelFires(env, fired, target);
    FiredOne(Travel(env, fired, target).journal, TransitionComplete(from, target));
  }

  lemma FollowNothing<C, E>(env: Env<C, E>, m: Config<C, E>)
    requires Ready(env.chart) && Active(env, m) && Next(env.chart, Last(m.path)) == None
    ensures FollowDefaults(env, m) == m
  {
  }

  /** The last default followed is the last transition fired. */
  lemma {:induction false} FollowFires<C, E>(env: Env<C, E>, m: Config<C, E>)
    requires Ready(env.chart) && Active(env, m)
    ensures var f := Followed(env.chart, Last(m.path));
      LastFired(FollowDefaults(env, m).journal) ==
        if f == [] then LastFired(m.journal) else Some((Some(Last(f)), RestOf(env.chart, Last(m.path))))
    decreases RankOf(env.chart)[Last(m.path)]
  {
    hide DefaultFired, FollowDefaults, LastFired, RootPath, Followed, RestOf, EntersFrom, IsHop, Routes.IsUp;
    DefaultLowersRank(env.chart, Last(m.path));
    match Next(env.chart, Last(m.path)) {
      case None =>
        FollowedNone(env.chart, Last(m.path));
        FollowNothing(env, m);
      case Some(t) =>
        FollowStep(env, m, t);
        FollowedStep(env.chart, Last(m.path), t);
        DefaultFires(env, m, t);
        if EntersFrom(env.chart, m.path, t) {
          FollowFires(env, DefaultFired(env, m, t));
          DefaultChain(env.chart, t);
        }
    }
  }

  /** Where a transition from one state to another comes to rest, and what fired last. */
  ghost function RestAfter(c: Chart, from: nat, target: nat): ((nat, nat))
    requires Ready(c) && from < |c.states| && target < |c.states|
  {
    var f := Followed(c, target);
    if EntersFrom(c, RootPath(c, from), target) && f != [] then (Last(f), RestOf(c, target)) else (from, target)
  }

  lemma FireRests<C, E>(env: Env<C, E>, m: Config<C, E>, target: nat, reason: Reason)
    requires Ready(env.chart) && Active(env, m) && target < |env.chart.states|
    ensures var r, last := Fire(env, m, target, reason), RestAfter(env.chart, Last(m.path), target);
      && Last(r.path) == last.1 && last.1 < |env.chart.states|
      && LastFired(r.journal) == Some((Some(last.0), last.1))
  {
    hide Travel, FollowDefaults, LastFired;
    var from := Some(Last(m.path));
    var fired := Log(m, [TransitionFired(from, target, reason)]);
    FiredOne(m.journal, TransitionFired(from, target, reason));
    TravelFires(env, fired, target);
    var there := Travel(env, fired, target);
    if EntersFrom(env.chart, m.path, target) {
      FollowFires(env, there);
      FollowIsFollowed(env, there);
      DefaultChain(env.chart, target);
    }
    var rested := if EntersFrom(env.chart, m.path, target) then FollowDefaults(env, there) else there;
    FiredOne(rested.journal, TransitionComplete(from, target));
  }

  /** After a transition, the resting state has a default of its own only if the last transition
      fired, be it this one or a default it caused, led up to it. */
  lemma RestHasDefaultOnlyIfUp(c: Chart, from: nat, target: nat)
    requires Ready(c) && from < |c.states| && target < |c.states|
    ensures var (last, rest) := RestAfter(c, from, target);
      && last < |c.states| && rest < |c.states|
      && (Next(c, rest).Some? ==> Routes.IsUp(c, last, rest))
  {
    hide RootPath;
    DefaultChain(c, target);
    EntersUnlessUp(c, from, target);
  }

  // ----- whole runs -----

  /** A resting machine is where the last fired transition led, and the state it rests at has a
      default only if that transition went up to it; before any transition it is at a root
      without a default. */
  predicate Settled<C, E>(env: Env<C, E>, m: Config<C, E>)
    requires IsTree(env.chart)
  {
    m.path != [] ==>
      Last(m.path) < |env.chart.states|
      && match LastFired(m.journal)
         case None => Last(m.path) == 0 && Next(env.chart, 0) == None
         case Some((from, to)) => to == Last(m.path) && from.Some? && RestsBy(env.chart, from.value, to)
  }

  predicate RestsBy(c: Chart, last: nat, rest: nat)
    requires IsTree(c) && rest < |c.states|
  {
    last < |c.states| && (Next(c, rest).Some? ==> Routes.IsUp(c, last, rest))
  }

  lemma FireSettles<C, E>(env: Env<C, E>, m: Config<C, E>, target: nat, reason: Reason)
    requires Ready(env.chart) && Active(env, m) && target < |env.chart.states|
    ensures Settled(env, Fire(env, m, target, reason))
  {
    hide Fire, RestAfter, LastFired;
    FireRests(env, m, target, reason);
    RestHasDefaultOnlyIfUp(env.chart, Last(m.path), target);
  }

  lemma {:induction false} RunDeclaredSettles<C, E>(env: Env<C, E>, m: Config<C, E>, s: nat,
      kinds: seq<HandlerKind>, ev: Option<E>, reason: Reason)
    requires Ready(env.chart) && Active(env, m) && Settled(env, m)
    requires forall i :: 0 <= i < |kinds| && kinds[i].Transition? ==> kinds[i].target < |env.chart.states|
    ensures Settled(env, RunDeclared(env, m, s, kinds, ev, reason))
    decreases |kinds|
  {
    hide Fire, Invoke, LastFired;
    if kinds != [] {
      match kinds[0] {
        case Action(a) =>
          InvokeFires(env, m, s, a, HandlerAction, ev);
          RunDeclaredSettles(env, Invoke(env, m, s, a, HandlerAction, ev), s, kinds[1..], ev, reason);
        case Transition(t) =>
          FireSettles(env, m, t, reason);
          RunDeclaredSettles(env, Fire(env, m, t, reason), s, kinds[1..], ev, reason);
      }
    }
  }

  lemma RunTriggerSettles<C, E>(env: Env<C, E>, m: Config<C, E>, s: nat, trigger: Trigger, ev: Option<E>,
      reason: Reason)
    requires Ready(env.chart) && Active(env, m) && Settled(env, m) && s < |env.chart.states|
    ensures Settled(env, RunTrigger(env, m, s, trigger, ev, reason))
  {
    assert StateOk(env.chart, s);
    DeclaredInChart(env.chart, env.chart.states[s].handlers, trigger);
    RunDeclaredSettles(env, m, s, Declared(env.chart.states[s].handlers, trigger), ev, reason);
  }

  lemma DeliverSettles<C, E>(env: Env<C, E>, m: Config<C, E>, e: E)
    requires Ready(env.chart) && Active(env, m) && Settled(env, m)
    ensures Settled(env, Deliver(env, m, e))
  {
    hide RunTrigger, LastFired;
    var id := EventId(env, e);
    FiredOne(m.journal, EventDropped(id));
    if id != U16_MAX && Bubble(env.chart, m.path, Trigger.Event(id)).Some? {
      var h := Bubble(env.chart, m.path, Trigger.Event(id)).value;
      FiredOne(m.journal, EventDelivered(h, id));
      RunTriggerSettles(env, Log(m, [EventDelivered(h, id)]), h, Trigger.Event(id), Some(e), Reason.Event(id));
    }
  }

  lemma FireTimerSettles<C, E>(env: Env<C, E>, m: Config<C, E>, i: nat)
    requires Ready(env.chart) && Active(env, m) && Settled(env, m) && i < |m.timers|
    ensures Settled(env, FireTimer(env, m, i))
  {
    hide RunTrigger, LastFired;
    var s, t := m.timers[i].state, m.timers[i].trigger;
    var fired := Log(m.(timers := SwapRemove(m.timers, i)), [TimerFired(s, t)]);
    FiredOne(m.journal, TimerFired(s, t));
    ArmFires(env, fired, s, t);
    var ready := if Repeats(env.chart, t) then Arm(env, fired, s, t) else fired;
    if s < |env.chart.states| {
      RunTriggerSettles(env, ready, s, Duration(t), None, Reason.Timer(s, t));
    }
  }

  lemma ReceiveSettles<C, E>(env: Env<C, E>, m: Config<C, E>)
    requires Ready(env.chart) && Active(env, m) && !m.terminated && m.queue != [] && Settled(env, m)
    ensures Settled(env, Receive(env, m).0)
  {
    hide Deliver, Shutdown, LastFired;
    var id := EventId(env, m.queue[0]);
    FiredOne(m.journal, EventReceived(id));
    if env.chart.terminate != Some(env.variant(m.queue[0])) {
      DeliverSettles(env, Log(Take(m), [EventReceived(id)]), m.queue[0]);
    }
  }

  lemma StartSettles<C, E>(env: Env<C, E>, m: Config<C, E>)
    requires Ready(env.chart) && m.path == [] && LastFired(m.journal) == None
    ensures Settled(env, Start(env, m))
  {
    hide Enter, FollowDefaults, LastFired, Followed, RestOf, IsHop, Routes.IsUp;
    FiredOne(m.journal, Started(env.chart.hash));
    var began := Log(m, [Started(env.chart.hash)]);
    EnterFires(env, began, 0);
    FollowFires(env, Enter(env, began, 0));
    FollowIsFollowed(env, Enter(env, began, 0));
    DefaultChain(env.chart, 0);
  }

  /** Nothing has fired on a machine that is not started. */
  predicate Calm<C, E>(env: Env<C, E>, m: Config<C, E>)
    requires IsTree(env.chart)
  {
    Settled(env, m) && (m.path == [] && !m.terminated ==> LastFired(m.journal) == None)
  }

  lemma StepSettles<C, E>(env: Env<C, E>, m: Config<C, E>, d: nat)
    requires Ready(env.chart) && Resting(env, m) && Calm(env, m)
    ensures Calm(env, Step(env, m, d).0)
  {
    hide FireTimer, Receive, Start, LastFired;
    if !m.terminated {
      var now := m.(timers := Decremented(m.timers, d));
      if m.path == [] {
        StartSettles(env, m);
      } else {
        match NextExpired(now.timers, Depths(env.chart)) {
          case Some(i) => FireTimerSettles(env, now, i);
          case None => if m.queue != [] { ReceiveSettles(env, now); }
        }
      }
    }
  }

  /** In every run: the machine rests at a state with a default only when the last transition
      fired, whether by a handler or by default, was an up-transition to that state. */
  lemma {:induction false} RunSettles<C, E>(env: Env<C, E>, ctx: C, inputs: seq<Input<E>>)
    requires Ready(env.chart)
    ensures Calm(env, Run(env, ctx, inputs))
    decreases |inputs|
  {
    hide Step, Settled;
    if inputs != [] {
      var n := |inputs| - 1;
      RunSettles(env, ctx, inputs[..n]);
      var m := Run(env, ctx, inputs[..n]);
      CallSettles(env, m, inputs[n]);
    } else {
      assert Settled(env, Init<C, E>(ctx)) by { InitSettled(env, ctx); }
    }
  }

  lemma InitSettled<C, E>(env: Env<C, E>, ctx: C)
    requires IsTree(env.chart)
    ensures Settled(env, Init<C, E>(ctx))
  {
  }

  lemma CallSettles<C, E>(env: Env<C, E>, m: Config<C, E>, input: Input<E>)
    requires Ready(env.chart) && Resting(env, m) && Calm(env, m)
    ensures Calm(env, Apply(env, m, input))
  {
    hide Step;
    if input.Advance? { StepSettles(env, m, input.elapsed); }
  }
}
