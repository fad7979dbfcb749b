/** The interpreter plays by the small steps: every operation adds exactly the entries due. */
module Playing {
  import opened Wrappers
  import opened Charts
  import opened Tree
  import opened Handlers
  import opened Validate
  import opened Timers
  import opened Dispatch
  import opened Trace
  import opened Reference
  import opened Keeps
  import opened RestingStates
  import opened SmallSteps

  /** Where a stretch of journal begins, and what the machine was doing there. */
  datatype Base<C, E> = Base(past: seq<TraceEvent>, start: Spot<C, E>)

  function ShownAll<E>(entries: seq<TraceEvent>): (r: seq<Mark<E>>)
    ensures |r| == |entries| && forall i :: 0 <= i < |r| ==> r[i] == Shown(entries[i])
  {
    seq(|entries|, i requires 0 <= i < |entries| => Shown(entries[i]))
  }

  ghost predicate Reaches<C, E>(env: Env<C, E>, b: Base<C, E>, journal: seq<TraceEvent>, p: Spot<C, E>)
    requires IsTree(env.chart)
  {
    b.past <= journal && PlayAll(env, b.start, ShownAll(journal[|b.past|..])) == Some(p)
  }

  lemma ReachOne<C, E>(env: Env<C, E>, b: Base<C, E>, journal: seq<TraceEvent>, p: Spot<C, E>, e: TraceEvent,
      q: Spot<C, E>)
    requires IsTree(env.chart) && Reaches(env, b, journal, p) && Follow(env, p, e) == Some(q)
    ensures Reaches(env, b, journal + [e], q)
  {
    hide Follow;
    var es := journal[|b.past|..];
    assert (journal + [e])[|b.past|..] == es + [e];
    assert ShownAll<E>(es + [e]) == ShownAll<E>(es) + [Shown(e)];
    PlayAppend(env, b.start, ShownAll(es), [Shown(e)]);
    PlayOne(env, p, Shown(e));
  }

  lemma PlayOne<C, E>(env: Env<C, E>, p: Spot<C, E>, mark: Mark<E>)
    requires IsTree(env.chart)
    ensures PlayAll(env, p, [mark]) == Play(env, p, mark)
  {
    hide Play;
    assert [mark][1..] == [];
  }

  lemma ReachDue<C, E>(env: Env<C, E>, b: Base<C, E>, journal: seq<TraceEvent>, p: Spot<C, E>, e: TraceEvent,
      rest: seq<TraceEvent>)
    requires IsTree(env.chart) && Reaches(env, b, journal, p) && p.run.None? && p.due == [e] + rest
    ensures Reaches(env, b, journal + [e], Effect(env, p.(due := rest), e))
  {
    hide Effect, Reaches;
    assert p.due[1..] == rest;
    ReachOne(env, b, journal, p, e, Effect(env, p.(due := rest), e));
  }

  /** Entries that only record. */
  predicate OnlyRecords(e: TraceEvent) {
    e.DuringStarted? || e.DuringCancelled? || e.TimerCancelled?
  }

  lemma {:induction false} ReachRecords<C, E>(env: Env<C, E>, b: Base<C, E>, journal: seq<TraceEvent>, p: Spot<C, E>,
      es: seq<TraceEvent>, rest: seq<TraceEvent>)
    requires IsTree(env.chart) && Reaches(env, b, journal, p) && p.run.None? && p.due == es + rest
    requires forall i :: 0 <= i < |es| ==> OnlyRecords(es[i])
    ensures Reaches(env, b, journal + es, p.(due := rest))
    decreases |es|
  {
    hide Reaches;
    if es == [] {
      assert journal + es == journal && es + rest == rest;
    } else {
      assert es + rest == [es[0]] + (es[1..] + rest);
      ReachDue(env, b, journal, p, es[0], es[1..] + rest);
      ReachRecords(env, b, journal + [es[0]], p.(due := es[1..] + rest), es[1..], rest);
      assert journal + es == journal + [es[0]] + es[1..];
    }
  }

  /** Between actions, with `due` still to come. */
  function At<C, E>(m: Config<C, E>, due: seq<TraceEvent>, event: Option<E>): Spot<C, E> {
    Spot(m.ctx, m.path, m.queue, m.timers, m.terminated, m.overflow, due, None, event)
  }

  ghost predicate On<C, E>(env: Env<C, E>, b: Base<C, E>, m: Config<C, E>, due: seq<TraceEvent>, event: Option<E>)
    requires IsTree(env.chart)
  {
    Reaches(env, b, m.journal, At(m, due, event))
  }

  // ----- actions -----

  lemma {:induction false} RunActPlays<C, E>(env: Env<C, E>, b: Base<C, E>, m: Config<C, E>, a: Act<C, E>,
      due: seq<TraceEvent>, event: Option<E>)
    requires IsTree(env.chart) && Reaches(env, b, m.journal, Settle(At(m, due, event), a))
    ensures On(env, b, RunAct(env, m, a), due, event)
    decreases a
  {
    hide Reaches;
    match a {
      case Done(_) =>
      case Emit(e, onOk, onFull) =>
        var p := Settle(At(m, due, event), a);
        if !m.overflow && |m.queue| < env.queueCapacity {
          var next := Log(Push(m, e), [EmitQueued(EventId(env, e))]);
          ReachOne(env, b, m.journal, p, EmitQueued(EventId(env, e)), Settle(At(next, due, event), onOk));
          RunActPlays(env, b, next, onOk, due, event);
        } else {
          var next := Log(m.(overflow := true), [EmitFailed(EventId(env, e))]);
          ReachOne(env, b, m.journal, p, EmitFailed(EventId(env, e)), Settle(At(next, due, event), onFull));
          RunActPlays(env, b, next, onFull, due, event);
        }
    }
  }

  lemma InvokePlays<C, E>(env: Env<C, E>, b: Base<C, E>, m: Config<C, E>, s: nat, a: nat, kind: ActionKind,
      ev: Option<E>, rest: seq<TraceEvent>, event: Option<E>)
    requires IsTree(env.chart) && On(env, b, m, [ActionInvoked(s, a, kind)] + rest, event)
    requires ev == if kind.HandlerAction? then event else None
    ensures On(env, b, Invoke(env, m, s, a, kind, ev), rest, event)
  {
    hide Reaches;
    ReachDue(env, b, m.journal, At(m, [ActionInvoked(s, a, kind)] + rest, event), ActionInvoked(s, a, kind), rest);
    RunActPlays(env, b, Log(m, [ActionInvoked(s, a, kind)]), env.act(a, m.ctx, ev), rest, event);
  }

  lemma {:induction false} InvokeAllPlays<C, E>(env: Env<C, E>, b: Base<C, E>, m: Config<C, E>, s: nat, ids: seq<nat>,
      kind: ActionKind, rest: seq<TraceEvent>, event: Option<E>)
    requires IsTree(env.chart) && On(env, b, m, Invocations(s, ids, kind) + rest, event) && !kind.HandlerAction?
    ensures On(env, b, InvokeAll(env, m, s, ids, kind, None), rest, event)
    decreases |ids|
  {
    hide On, Invoke;
    if ids == [] {
      assert Invocations(s, ids, kind) + rest == rest;
    } else {
      assert Invocations(s, ids, kind) + rest
        == [ActionInvoked(s, ids[0], kind)] + (Invocations(s, ids[1..], kind) + rest);
      InvokePlays(env, b, m, s, ids[0], kind, None, Invocations(s, ids[1..], kind) + rest, event);
      InvokeAllPlays(env, b, Invoke(env, m, s, ids[0], kind, None), s, ids[1..], kind, rest, event);
    }
  }

  lemma {:induction false} StartByLowBits(ts: seq<TimerEntry>, cap: nat, s: nat, t: nat, ns: nat)
    ensures AfterStart(ts, cap, s, t, AsU64(ns)) == AfterStart(ts, cap, s, t, ns)
  {
  }

  lemma ArmPlays<C, E>(env: Env<C, E>, b: Base<C, E>, m: Config<C, E>, s: nat, t: nat,
      rest: seq<TraceEvent>, event: Option<E>)
    requires IsTree(env.chart) && On(env, b, m, [TimerArmed(s, t, FullTime(env.chart, t))] + rest, event)
    ensures On(env, b, Arm(env, m, s, t), rest, event)
  {
    hide Reaches, AfterStart;
    var e := TimerArmed(s, t, FullTime(env.chart, t));
    StartByLowBits(m.timers, Slots(env.chart), s, t, DurationOf(env.chart, t));
    ReachDue(env, b, m.journal, At(m, [e] + rest, event), e, rest);
  }

  lemma {:induction false} ArmAllPlays<C, E>(env: Env<C, E>, b: Base<C, E>, m: Config<C, E>, s: nat, tids: seq<nat>,
      rest: seq<TraceEvent>, event: Option<E>)
    requires IsTree(env.chart) && On(env, b, m, Armings(env.chart, s, tids) + rest, event)
    ensures On(env, b, ArmAll(env, m, s, tids), rest, event)
    decreases |tids|
  {
    hide On, Arm, FullTime;
    var c := env.chart;
    if tids == [] {
      assert Armings(c, s, tids) + rest == rest;
    } else {
      assert Armings(c, s, tids) + rest
        == [TimerArmed(s, tids[0], FullTime(c, tids[0]))] + (Armings(c, s, tids[1..]) + rest);
      ArmPlays(env, b, m, s, tids[0], Armings(c, s, tids[1..]) + rest, event);
      ArmAllPlays(env, b, Arm(env, m, s, tids[0]), s, tids[1..], rest, event);
    }
  }

  // ----- states in and out -----

  lemma Regroup<T>(a: seq<T>, b: seq<T>, c: seq<T>, d: seq<T>, e: seq<T>)
    ensures a + b + c + d + e == a + (b + (c + (d + e)))
  {
  }

  lemma EnterPlays<C, E>(env: Env<C, E>, b: Base<C, E>, m: Config<C, E>, s: nat, rest: seq<TraceEvent>,
      event: Option<E>)
    requires IsTree(env.chart) && s < |env.chart.states| && On(env, b, m, [EnterBegan(s)] + rest, event)
    ensures On(env, b, Enter(env, m, s), rest, event)
  {
    hide Reaches, InvokeAll, ArmAll, Invocations, Armings;
    var st := env.chart.states[s];
    var durings := DuringsStarted(s, st.durings);
    var tail := durings + ([Entered(s)] + rest);
    ReachDue(env, b, m.journal, At(m, [EnterBegan(s)] + rest, event), EnterBegan(s), rest);
    var inv, arm := Invocations(s, st.entries, EntryAction), Armings(env.chart, s, st.ownedTimers);
    assert EnterScript(env.chart, s) == inv + arm + durings + [Entered(s)];
    Regroup(inv, arm, durings, [Entered(s)], rest);
    var began := Log(m, [EnterBegan(s)]);
    InvokeAllPlays(env, b, began, s, st.entries, EntryAction, Armings(env.chart, s, st.ownedTimers) + tail, event);
    var acted := InvokeAll(env, began, s, st.entries, EntryAction, None);
    ArmAllPlays(env, b, acted, s, st.ownedTimers, tail, event);
    var armed := ArmAll(env, acted, s, st.ownedTimers);
    ReachRecords(env, b, armed.journal, At(armed, tail, event), durings, [Entered(s)] + rest);
    ReachDue(env, b, armed.journal + durings, At(armed, [Entered(s)] + rest, event), Entered(s), rest);
  }

  lemma StopPlays<C, E>(env: Env<C, E>, b: Base<C, E>, m: Config<C, E>, rest: seq<TraceEvent>, event: Option<E>)
    requires IsTree(env.chart) && m.path != [] && Last(m.path) < |env.chart.states|
    requires On(env, b, m, [ExitBegan(Last(m.path))] + rest, event)
    ensures var s := Last(m.path);
      On(env, b, Stop(env, m), Invocations(s, env.chart.states[s].exits, ExitAction) + ([Exited(s)] + rest), event)
  {
    hide Reaches, Invocations;
    var s := Last(m.path);
    var st := env.chart.states[s];
    var durings, timers := DuringsCancelled(s, st.durings), TimersCancelled(s, st.ownedTimers);
    var tail := Invocations(s, st.exits, ExitAction) + ([Exited(s)] + rest);
    ReachDue(env, b, m.journal, At(m, [ExitBegan(s)] + rest, event), ExitBegan(s), rest);
    assert ExitScript(env.chart, s) == durings + timers + Invocations(s, st.exits, ExitAction) + [Exited(s)];
    Regroup(durings, timers, Invocations(s, st.exits, ExitAction), [Exited(s)], rest);
    var began := Log(m, [ExitBegan(s)]).(timers := Cancelled(m.timers, s));
    ReachRecords(env, b, began.journal, At(began, durings + (timers + tail), event), durings, timers + tail);
    ReachRecords(env, b, began.journal + durings, At(began, timers + tail, event), timers, tail);
  }

  lemma ExitPlays<C, E>(env: Env<C, E>, b: Base<C, E>, m: Config<C, E>, rest: seq<TraceEvent>, event: Option<E>)
    requires IsTree(env.chart) && m.path != [] && Last(m.path) < |env.chart.states|
    requires On(env, b, m, [ExitBegan(Last(m.path))] + rest, event)
    ensures On(env, b, Exit(env, m), rest, event)
  {
    hide Reaches, InvokeAll, Invocations, Stop;
    var s := Last(m.path);
    var st := env.chart.states[s];
    StopPlays(env, b, m, rest, event);
    InvokeAllPlays(env, b, Stop(env, m), s, st.exits, ExitAction, [Exited(s)] + rest, event);
    var acted := InvokeAll(env, Stop(env, m), s, st.exits, ExitAction, None);
    ReachDue(env, b, acted.journal, At(acted, [Exited(s)] + rest, event), Exited(s), rest);
  }

  lemma LeavingFirst(path: seq<nat>, k: nat)
    requires k < |path|
    ensures Leaving(Reverse(path[k..])) == [ExitBegan(Last(path))] + Leaving(Reverse(path[..|path| - 1][k..]))
  {
    assert path[k..][..|path| - k - 1] == path[..|path| - 1][k..];
  }

  lemma {:induction false} ExitToPlays<C, E>(env: Env<C, E>, b: Base<C, E>, m: Config<C, E>, k: nat,
      rest: seq<TraceEvent>, event: Option<E>)
    requires IsTree(env.chart) && k <= |m.path| && PathInChart(env.chart, m.path)
    requires On(env, b, m, Leaving(Reverse(m.path[k..])) + rest, event)
    ensures On(env, b, ExitTo(env, m, k), rest, event)
    decreases |m.path|
  {
    hide On, Exit, Leaving;
    if |m.path| == k {
      LeavingNone(m.path, k, rest);
    } else {
      var more := Leaving(Reverse(m.path[..|m.path| - 1][k..])) + rest;
      LeavingFirst(m.path, k);
      Assoc([ExitBegan(Last(m.path))], Leaving(Reverse(m.path[..|m.path| - 1][k..])), rest);
      ExitPlays(env, b, m, more, event);
      ExitToPlays(env, b, Exit(env, m), k, rest, event);
    }
  }

  lemma LeavingNone(path: seq<nat>, k: nat, rest: seq<TraceEvent>)
    requires k == |path|
    ensures Leaving(Reverse(path[k..])) + rest == rest
  {
    assert path[k..] == [];
  }

  lemma {:induction false} EnterAllPlays<C, E>(env: Env<C, E>, b: Base<C, E>, m: Config<C, E>, ss: seq<nat>,
      rest: seq<TraceEvent>, event: Option<E>)
    requires IsTree(env.chart) && PathInChart(env.chart, ss) && On(env, b, m, Entering(ss) + rest, event)
    ensures On(env, b, EnterAll(env, m, ss), rest, event)
    decreases |ss|
  {
    hide On, Enter;
    if ss == [] {
      assert Entering(ss) + rest == rest;
    } else {
      assert Entering(ss) + rest == [EnterBegan(ss[0])] + (Entering(ss[1..]) + rest);
      EnterPlays(env, b, m, ss[0], Entering(ss[1..]) + rest, event);
      EnterAllPlays(env, b, Enter(env, m, ss[0]), ss[1..], rest, event);
    }
  }

  // ----- transitions -----

  lemma TravelPlays<C, E>(env: Env<C, E>, b: Base<C, E>, m: Config<C, E>, target: nat, rest: seq<TraceEvent>,
      event: Option<E>)
    requires IsTree(env.chart) && Active(env, m) && target < |env.chart.states|
    requires var from := Last(m.path);
      var enters := Entering(EnterRoute(env.chart, from, target));
      On(env, b, m, Leaving(ExitRoute(env.chart, from, target)) + (enters + rest), event)
    ensures On(env, b, Travel(env, m, target), rest, event)
  {
    hide On, ExitTo, EnterAll, Leaving, Entering, RootPath, Kept;
    var to, k := RootPath(env.chart, target), Kept(env.chart, m.path, target);
    Rejoin(env.chart, m.path, target);
    ExitToPlays(env, b, m, k, Entering(to[k..]) + rest, event);
    EnterAllPlays(env, b, ExitTo(env, m, k), to[k..], rest, event);
  }

  /** Only an up-transition leaves the target's default alone. */
  lemma EntersByPath(c: Chart, path: seq<nat>, to: nat)
    requires IsTree(c) && path != [] && Last(path) < |c.states| && path == RootPath(c, Last(path)) && to < |c.states|
    ensures EntersFrom(c, path, to) <==> (to !in path || to == Last(path))
  {
    EntersUnlessUp(c, Last(path), to);
  }

  function NextDue(c: Chart, path: seq<nat>, to: nat): seq<TraceEvent>
    requires IsTree(c) && path != [] && to < |c.states|
  {
    if EntersFrom(c, path, to) then DefaultDue(c, to) else []
  }

  lemma FiredPlays<C, E>(env: Env<C, E>, b: Base<C, E>, m: Config<C, E>, target: nat, reason: Reason,
      rest: seq<TraceEvent>, event: Option<E>)
    requires IsTree(env.chart) && Active(env, m) && target < |env.chart.states|
    requires On(env, b, m, [TransitionFired(Some(Last(m.path)), target, reason)] + rest, event)
    ensures var fired := TransitionFired(Some(Last(m.path)), target, reason);
      var done := [TransitionComplete(Some(Last(m.path)), target)];
      var next := NextDue(env.chart, m.path, target);
      var tail := if reason.Internal? then done + next else next + done;
      On(env, b, Travel(env, Log(m, [fired]), target), tail + rest, event)
  {
    hide Reaches, Travel, Leaving, Entering, ExitRoute, EnterRoute, DefaultDue, EntersFrom, RootPath;
    var c, from := env.chart, Last(m.path);
    var fired := TransitionFired(Some(from), target, reason);
    var done := [TransitionComplete(Some(from), target)];
    var next := NextDue(c, m.path, target);
    EntersByPath(c, m.path, target);
    ReachDue(env, b, m.journal, At(m, [fired] + rest, event), fired, rest);
    var tail := if reason.Internal? then done + next else next + done;
    Assoc(Leaving(ExitRoute(c, from, target)) + Entering(EnterRoute(c, from, target)), tail, rest);
    Assoc(Leaving(ExitRoute(c, from, target)), Entering(EnterRoute(c, from, target)), tail + rest);
    TravelPlays(env, b, Log(m, [fired]), target, tail + rest, event);
  }

  lemma DefaultPlays<C, E>(env: Env<C, E>, b: Base<C, E>, m: Config<C, E>, target: nat, rest: seq<TraceEvent>,
      event: Option<E>)
    requires IsTree(env.chart) && Active(env, m) && target < |env.chart.states|
    requires On(env, b, m, [TransitionFired(Some(Last(m.path)), target, Internal)] + rest, event)
    ensures On(env, b, DefaultFired(env, m, target), NextDue(env.chart, m.path, target) + rest, event)
  {
    hide Reaches, Travel, NextDue;
    var from := Some(Last(m.path));
    var done, next := TransitionComplete(from, target), NextDue(env.chart, m.path, target);
    FiredPlays(env, b, m, target, Internal, rest, event);
    Assoc([done], next, rest);
    var there := Travel(env, Log(m, [TransitionFired(from, target, Internal)]), target);
    ReachDue(env, b, there.journal, At(there, [done] + (next + rest), event), done, next + rest);
  }

  lemma {:induction false} FollowPlays<C, E>(env: Env<C, E>, b: Base<C, E>, m: Config<C, E>, rest: seq<TraceEvent>,
      event: Option<E>)
    requires Ready(env.chart) && Active(env, m) && On(env, b, m, DefaultDue(env.chart, Last(m.path)) + rest, event)
    ensures On(env, b, FollowDefaults(env, m), rest, event)
    decreases RankOf(env.chart)[Last(m.path)]
  {
    hide On, DefaultFired, RootPath, EntersFrom;
    DefaultLowersRank(env.chart, Last(m.path));
    match Next(env.chart, Last(m.path)) {
      case None =>
        NoDefault(env.chart, Last(m.path), rest);
      case Some(target) =>
        FollowStep(env, m, target);
        DefaultPlays(env, b, m, target, rest, event);
        if EntersFrom(env.chart, m.path, target) {
          FollowPlays(env, b, DefaultFired(env, m, target), rest, event);
        } else {
          assert NextDue(env.chart, m.path, target) + rest == rest;
        }
    }
  }

  lemma NoDefault(c: Chart, s: nat, rest: seq<TraceEvent>)
    requires s < |c.states| && Next(c, s) == None
    ensures DefaultDue(c, s) + rest == rest
  {
  }

  lemma FirePlays<C, E>(env: Env<C, E>, b: Base<C, E>, m: Config<C, E>, target: nat, reason: Reason,
      rest: seq<TraceEvent>, event: Option<E>)
    requires Ready(env.chart) && Active(env, m) && target < |env.chart.states| && !reason.Internal?
    requires On(env, b, m, [TransitionFired(Some(Last(m.path)), target, reason)] + rest, event)
    ensures On(env, b, Fire(env, m, target, reason), rest, event)
  {
    hide Reaches, Travel, FollowDefaults, DefaultDue, EntersFrom, RootPath;
    var from := Some(Last(m.path));
    var done := TransitionComplete(from, target);
    FiredPlays(env, b, m, target, reason, rest, event);
    Assoc(NextDue(env.chart, m.path, target), [done], rest);
    var there := Travel(env, Log(m, [TransitionFired(from, target, reason)]), target);
    if EntersFrom(env.chart, m.path, target) {
      FollowPlays(env, b, there, [done] + rest, event);
    } else {
      assert [] + ([done] + rest) == [done] + rest;
    }
    var rested := if EntersFrom(env.chart, m.path, target) then FollowDefaults(env, there) else there;
    ReachDue(env, b, rested.journal, At(rested, [done] + rest, event), done, rest);
  }

  // ----- triggers -----

  lemma HandlerScriptFirst(path: seq<nat>, s: nat, kinds: seq<HandlerKind>, reason: Reason)
    requires path != [] && kinds != []
    ensures HandlerScript(path, s, kinds, reason) ==
      [match kinds[0]
       case Action(a) => ActionInvoked(s, a, HandlerAction)
       case Transition(to) => TransitionFired(Some(Last(path)), to, reason)]
      + HandlerScript(path, s, kinds[1..], reason)
  {
  }

  lemma {:induction false} RunDeclaredPlays<C, E>(env: Env<C, E>, b: Base<C, E>, m: Config<C, E>, s: nat,
      kinds: seq<HandlerKind>, reason: Reason, rest: seq<TraceEvent>, event: Option<E>)
    requires Ready(env.chart) && Active(env, m) && TransitionLast(kinds) && !reason.Internal?
    requires forall i :: 0 <= i < |kinds| && kinds[i].Transition? ==> kinds[i].target < |env.chart.states|
    requires On(env, b, m, HandlerScript(m.path, s, kinds, reason) + rest, event)
    ensures On(env, b, RunDeclared(env, m, s, kinds, event, reason), rest, event)
    decreases |kinds|
  {
    hide On, Fire, Invoke, HandlerScript;
    if kinds == [] {
      NothingDeclared(m.path, s, reason, rest);
    } else {
      var more := HandlerScript(m.path, s, kinds[1..], reason);
      HandlerScriptFirst(m.path, s, kinds, reason);
      match kinds[0] {
        case Action(a) =>
          Assoc([ActionInvoked(s, a, HandlerAction)], more, rest);
          InvokePlays(env, b, m, s, a, HandlerAction, event, more + rest, event);
          SameEnd(kinds);
          RunDeclaredPlays(env, b, Invoke(env, m, s, a, HandlerAction, event), s, kinds[1..], reason, rest, event);
        case Transition(t) =>
          assert kinds == [HandlerKind.Transition(t)] && kinds[1..] == [];
          RunOne(env, m, s, t, event, reason);
          NothingDeclared(m.path, s, reason, rest);
          Assoc([TransitionFired(Some(Last(m.path)), t, reason)], more, rest);
          FirePlays(env, b, m, t, reason, rest, event);
      }
    }
  }

  lemma NothingDeclared(path: seq<nat>, s: nat, reason: Reason, rest: seq<TraceEvent>)
    requires path != []
    ensures HandlerScript(path, s, [], reason) + rest == rest
  {
  }

  lemma RunTriggerPlays<C, E>(env: Env<C, E>, b: Base<C, E>, m: Config<C, E>, s: nat, trigger: Trigger, reason: Reason,
      rest: seq<TraceEvent>, event: Option<E>)
    requires Ready(env.chart) && Active(env, m) && s < |env.chart.states| && !reason.Internal?
    requires On(env, b, m, TriggerScript(env.chart, m.path, s, trigger, reason) + rest, event)
    ensures On(env, b, RunTrigger(env, m, s, trigger, event, reason), rest, event)
  {
    hide On;
    var hs := env.chart.states[s].handlers;
    assert OrderedAt(env.chart, s) && StateOk(env.chart, s);
    LastAmongDeclared(hs, trigger);
    DeclaredInChart(env.chart, hs, trigger);
    RunDeclaredPlays(env, b, m, s, Declared(hs, trigger), reason, rest, event);
  }

  lemma DeliverPlays<C, E>(env: Env<C, E>, b: Base<C, E>, m: Config<C, E>, e: E)
    requires Ready(env.chart) && Active(env, m)
    requires On(env, b, m, ReceiptScript(env.chart, m.path, EventId(env, e), false), Some(e))
    ensures On(env, b, Deliver(env, m, e), [], Some(e))
  {
    hide Reaches, RunTrigger, TriggerScript;
    var id := EventId(env, e);
    if id == U16_MAX || Bubble(env.chart, m.path, Trigger.Event(id)).None? {
      ReachDue(env, b, m.journal, At(m, [EventDropped(id)], Some(e)), EventDropped(id), []);
    } else {
      var h := Bubble(env.chart, m.path, Trigger.Event(id)).value;
      var script := TriggerScript(env.chart, m.path, h, Trigger.Event(id), Reason.Event(id));
      ReachDue(env, b, m.journal, At(m, [EventDelivered(h, id)] + script, Some(e)), EventDelivered(h, id), script);
      NoMoves(script);
      RunTriggerPlays(env, b, Log(m, [EventDelivered(h, id)]), h, Trigger.Event(id), Reason.Event(id), [], Some(e));
    }
  }

  lemma FireTimerPlays<C, E>(env: Env<C, E>, b: Base<C, E>, m: Config<C, E>, i: nat)
    requires Ready(env.chart) && Active(env, m) && NextExpired(m.timers, StateDepths(env.chart)) == Some(i)
    requires m.timers[i].state < |env.chart.states|
    requires On(env, b, m, [TimerFired(m.timers[i].state, m.timers[i].trigger)], None)
    ensures On(env, b, FireTimer(env, m, i), [], None)
  {
    hide Reaches, RunTrigger, TriggerScript, AfterStart, SwapRemove, NextExpired, RootPath;
    var c, s, t := env.chart, m.timers[i].state, m.timers[i].trigger;
    var again := if t < |c.durations| && c.durations[t].repeats then [TimerArmed(s, t, FullTime(c, t))] else [];
    var script := TriggerScript(c, m.path, s, Duration(t), Reason.Timer(s, t));
    ReachDue(env, b, m.journal, At(m, [TimerFired(s, t)], None), TimerFired(s, t), []);
    var fired := Log(m.(timers := SwapRemove(m.timers, i)), [TimerFired(s, t)]);
    NoMoves(again + script);
    NoMoves(script);
    if Repeats(c, t) {
      ArmPlays(env, b, fired, s, t, script, None);
    } else {
      assert [] + script == script;
    }
    var ready := if Repeats(c, t) then Arm(env, fired, s, t) else fired;
    RunTriggerPlays(env, b, ready, s, Duration(t), Reason.Timer(s, t), [], None);
  }

  lemma ShutdownPlays<C, E>(env: Env<C, E>, b: Base<C, E>, m: Config<C, E>, v: nat, event: Option<E>)
    requires IsTree(env.chart) && PathInChart(env.chart, m.path) && On(env, b, m, [TerminateRequested(v)], event)
    ensures On(env, b, Shutdown(env, Log(m, [TerminateRequested(v)])), [], event)
  {
    hide Reaches, ExitTo, Leaving;
    ReachDue(env, b, m.journal, At(m, [TerminateRequested(v)], event), TerminateRequested(v), []);
    var asked := Log(m, [TerminateRequested(v)]);
    assert m.path[0..] == m.path;
    NoMoves(Leaving(Reverse(m.path)) + [Terminated]);
    ExitToPlays(env, b, asked, 0, [Terminated], event);
    var gone := ExitTo(env, asked, 0);
    ReachDue(env, b, gone.journal, At(gone, [Terminated], event), Terminated, []);
  }

  lemma ReceivePlays<C, E>(env: Env<C, E>, b: Base<C, E>, m: Config<C, E>)
    requires Ready(env.chart) && Active(env, m) && !m.terminated && m.queue != []
    requires On(env, b, m, [EventReceived(Number(env, m.queue[0]))], None)
    ensures On(env, b, Receive(env, m).0, [], Some(m.queue[0]))
  {
    hide Reaches, Deliver, Shutdown;
    var e, v := m.queue[0], Number(env, m.queue[0]);
    ReachDue(env, b, m.journal, At(m, [EventReceived(v)], None), EventReceived(v), []);
    var taken := Log(Take(m), [EventReceived(v)]);
    NoMoves(ReceiptScript(env.chart, m.path, v, env.chart.terminate == Some(env.variant(e))));
    if env.chart.terminate == Some(env.variant(e)) {
      ShutdownPlays(env, b, taken, v, Some(e));
    } else {
      DeliverPlays(env, b, taken, e);
    }
  }

  lemma StartPlays<C, E>(env: Env<C, E>, b: Base<C, E>, m: Config<C, E>)
    requires Ready(env.chart) && m.path == []
    requires On(env, b, m, [TraceEvent.Started(env.chart.hash)], None)
    ensures On(env, b, Start(env, m), [], None)
  {
    hide Reaches, Enter, FollowDefaults, DefaultDue;
    var started := TraceEvent.Started(env.chart.hash);
    ReachDue(env, b, m.journal, At(m, [started], None), started, []);
    var began := Log(m, [started]);
    NoMoves([EnterBegan(0)] + DefaultDue(env.chart, 0));
    EnterPlays(env, b, began, 0, DefaultDue(env.chart, 0), None);
    NoMoves(DefaultDue(env.chart, 0));
    FollowPlays(env, b, Enter(env, began, 0), [], None);
  }
}
