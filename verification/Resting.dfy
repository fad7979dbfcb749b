/** Where default chains come to rest, and what transitions leave alone. */
module RestingStates {
  import opened Wrappers
  import opened Charts
  import opened Tree
  import opened Validate
  import opened Timers
  import opened Trace
  import opened Reference
  import opened Keeps
  import Routes

  // ----- default chains -----

  /** The innermost state once the defaults from a freshly entered state have fired. */
  ghost function RestOf(c: Chart, s: nat): (r: nat)
    requires Ready(c) && s < |c.states|
    ensures r < |c.states|
    decreases RankOf(c)[s]
  {
    DefaultLowersRank(c, s);
    match Next(c, s)
    case None => s
    case Some(t) => if EntersFrom(c, RootPath(c, s), t) then RestOf(c, t) else t
  }

  /** The states whose defaults fire on the way, in order. */
  ghost function Followed(c: Chart, s: nat): (f: seq<nat>)
    requires Ready(c) && s < |c.states|
    ensures |f| <= RankOf(c)[s]
    decreases RankOf(c)[s]
  {
    DefaultLowersRank(c, s);
    match Next(c, s)
    case None => []
    case Some(t) => [s] + if EntersFrom(c, RootPath(c, s), t) then Followed(c, t) else []
  }

  /** `n` default transitions in a row, each out of the then innermost state. */
  ghost function FireDefaults<C, E>(env: Env<C, E>, m: Config<C, E>, n: nat): Option<Config<C, E>>
    requires Ready(env.chart) && Active(env, m)
    decreases n
  {
    if n == 0 then Some(m)
    else
      NextInChart(env.chart, Last(m.path));
      match Next(env.chart, Last(m.path))
      case None => None
      case Some(t) => FireDefaults(env, DefaultFired(env, m, t), n - 1)
  }

  lemma FollowedStep(c: Chart, s: nat, t: nat)
    requires Ready(c) && s < |c.states| && Next(c, s) == Some(t) && t < |c.states|
    ensures Followed(c, s) == [s] + if EntersFrom(c, RootPath(c, s), t) then Followed(c, t) else []
    ensures RestOf(c, s) == if EntersFrom(c, RootPath(c, s), t) then RestOf(c, t) else t
  {
  }

  lemma {:induction false} FollowIsFollowed<C, E>(env: Env<C, E>, m: Config<C, E>)
    requires Ready(env.chart) && Active(env, m)
    ensures FireDefaults(env, m, |Followed(env.chart, Last(m.path))|) == Some(FollowDefaults(env, m))
    ensures FollowDefaults(env, m).path == RootPath(env.chart, RestOf(env.chart, Last(m.path)))
    decreases RankOf(env.chart)[Last(m.path)]
  {
    hide DefaultFired;
    DefaultLowersRank(env.chart, Last(m.path));
    match Next(env.chart, Last(m.path)) {
      case None =>
      case Some(t) =>
        FollowStep(env, m, t);
        FollowedStep(env.chart, Last(m.path), t);
        if EntersFrom(env.chart, m.path, t) { FollowIsFollowed(env, DefaultFired(env, m, t)); }
    }
  }

  /** Following defaults fires fewer defaults than the chart has states, whatever the actions do,
      and rests where the chart says. */
  lemma DefaultsFollowedAreFew<C, E>(env: Env<C, E>, m: Config<C, E>)
    requires Ready(env.chart) && Active(env, m)
    ensures |Followed(env.chart, Last(m.path))| < |env.chart.states|
    ensures FireDefaults(env, m, |Followed(env.chart, Last(m.path))|) == Some(FollowDefaults(env, m))
    ensures FollowDefaults(env, m).path == RootPath(env.chart, RestOf(env.chart, Last(m.path)))
  {
    assert RankFalls(env.chart, RankOf(env.chart), Last(m.path));
    FollowIsFollowed(env, m);
  }

  /** Something is entered unless the target is a strict ancestor. */
  lemma EntersUnlessUp(c: Chart, from: nat, to: nat)
    requires IsTree(c) && from < |c.states| && to < |c.states|
    ensures EntersFrom(c, RootPath(c, from), to) <==> !Routes.IsUp(c, from, to)
  {
    Routes.RouteEnds(c, from, to);
  }

  /** A hop along `f`: the default of one followed state leads to the next, which is entered. */
  predicate IsHop(c: Chart, f: seq<nat>, i: nat)
    requires IsTree(c) && i + 1 < |f|
  {
    f[i] < |c.states| && Next(c, f[i]) == Some(f[i + 1]) && !Routes.IsUp(c, f[i], f[i + 1])
  }

  predicate IsDefaultChain(c: Chart, s: nat, f: seq<nat>, rest: nat)
    requires IsTree(c) && s < |c.states| && rest < |c.states|
  {
    && (forall i: nat :: i + 1 < |f| ==> IsHop(c, f, i))
    && (if f == [] then rest == s && Next(c, s) == None
        else f[0] == s && Last(f) < |c.states| && Next(c, Last(f)) == Some(rest))
    && (Next(c, rest).Some? ==> f != [] && Routes.IsUp(c, Last(f), rest))
  }

  /** The chain of defaults from a freshly entered state: each followed default but the last
      enters the next state; the last one leads to the resting state. That state has a default of
      its own only if the last default led up to it, so that it was not freshly entered. */
  lemma {:induction false} DefaultChain(c: Chart, s: nat)
    requires Ready(c) && s < |c.states|
    ensures IsDefaultChain(c, s, Followed(c, s), RestOf(c, s))
    decreases RankOf(c)[s]
  {
    hide RootPath, Followed, RestOf, EntersFrom, Routes.IsUp;
    DefaultLowersRank(c, s);
    if Next(c, s).Some? {
      var t := Next(c, s).value;
      FollowedStep(c, s, t);
      EntersUnlessUp(c, s, t);
      if EntersFrom(c, RootPath(c, s), t) {
        DefaultChain(c, t);
        LongerChain(c, s, t, Followed(c, t), RestOf(c, t));
      }
    } else {
      FollowedNone(c, s);
    }
  }

  lemma LongerChain(c: Chart, s: nat, t: nat, g: seq<nat>, rest: nat)
    requires IsTree(c) && s < |c.states| && t < |c.states| && rest < |c.states| && IsDefaultChain(c, t, g, rest)
    requires Next(c, s) == Some(t) && !Routes.IsUp(c, s, t)
    ensures IsDefaultChain(c, s, [s] + g, rest)
  {
    hide Routes.IsUp;
    var f := [s] + g;
    forall i: nat | i + 1 < |f| ensures IsHop(c, f, i) {
      if i > 0 { assert IsHop(c, g, i - 1); }
    }
  }

  lemma FollowedNone(c: Chart, s: nat)
    requires Ready(c) && s < |c.states| && Next(c, s) == None
    ensures Followed(c, s) == [] && RestOf(c, s) == s
  {
  }

  // ----- frame -----

  /** The entries of one state, in table order. */
  function OfState(ts: seq<TimerEntry>, s: nat): seq<TimerEntry> {
    if ts == [] then []
    else OfState(ts[..|ts| - 1], s) + if ts[|ts| - 1].state == s then [ts[|ts| - 1]] else []
  }

  lemma OfStateSnoc(ts: seq<TimerEntry>, e: TimerEntry, s: nat)
    ensures OfState(ts + [e], s) == OfState(ts, s) + if e.state == s then [e] else []
  {
    assert (ts + [e])[..|ts|] == ts;
  }

  lemma {:induction false} CancelSparesOthers(ts: seq<TimerEntry>, s: nat, other: nat)
    requires s != other
    ensures OfState(Cancelled(ts, s), other) == OfState(ts, other)
  {
    if ts != [] {
      var n := |ts| - 1;
      CancelSparesOthers(ts[..n], s, other);
      OfStateSnoc(Cancelled(ts[..n], s), ts[n], other);
      NoMoves(Cancelled(ts[..n], s));
    }
  }

  lemma {:induction false} ResetSparesOthers(ts: seq<TimerEntry>, i: nat, left: nat, other: nat)
    requires i < |ts| && ts[i].state != other
    ensures OfState(ts[i := ts[i].(remaining := left)], other) == OfState(ts, other)
  {
    var n := |ts| - 1;
    var ts' := ts[i := ts[i].(remaining := left)];
    if i == n {
      assert ts'[..n] == ts[..n];
    } else {
      assert ts'[..n] == ts[..n][i := ts[i].(remaining := left)];
      ResetSparesOthers(ts[..n], i, left, other);
    }
  }

  lemma StartSparesOthers(ts: seq<TimerEntry>, cap: nat, s: nat, t: nat, ns: nat, other: nat)
    requires s != other
    ensures OfState(AfterStart(ts, cap, s, t, ns), other) == OfState(ts, other)
  {
    match IndexOf(ts, s, t) {
      case Some(i) => ResetSparesOthers(ts, i, AsU64(ns), other);
      case None => OfStateSnoc(ts, TimerEntry(s, t, AsU64(ns)), other);
    }
  }

  lemma {:induction false} ArmAllSparesOthers<C, E>(env: Env<C, E>, m: Config<C, E>, s: nat, tids: seq<nat>, other: nat)
    requires s != other
    ensures OfState(ArmAll(env, m, s, tids).timers, other) == OfState(m.timers, other)
    decreases |tids|
  {
    if tids != [] {
      StartSparesOthers(m.timers, TimerCapacity(env.chart), s, tids[0], DurationOf(env.chart, tids[0]), other);
      ArmAllSparesOthers(env, Arm(env, m, s, tids[0]), s, tids[1..], other);
    }
  }

  lemma EnterSparesOthers<C, E>(env: Env<C, E>, m: Config<C, E>, s: nat, other: nat)
    requires s < |env.chart.states| && s != other
    ensures OfState(Enter(env, m, s).timers, other) == OfState(m.timers, other)
  {
    var acted := InvokeAll(env, Log(m, [EnterBegan(s)]), s, env.chart.states[s].entries, EntryAction, None);
    ArmAllSparesOthers(env, acted, s, env.chart.states[s].ownedTimers, other);
  }

  lemma {:induction false} ExitToSparesKept<C, E>(env: Env<C, E>, m: Config<C, E>, k: nat, s: nat)
    requires k <= |m.path| && PathInChart(env.chart, m.path) && s !in m.path[k..]
    ensures OfState(ExitTo(env, m, k).timers, s) == OfState(m.timers, s)
    decreases |m.path|
  {
    if k < |m.path| {
      assert Last(m.path) == m.path[k..][|m.path| - 1 - k];
      CancelSparesOthers(m.timers, Last(m.path), s);
      var next := Exit(env, m);
      forall i | 0 <= i < |next.path[k..]| ensures next.path[k..][i] != s {
        assert next.path[k..][i] == m.path[k..][i];
      }
      ExitToSparesKept(env, next, k, s);
    }
  }

  lemma {:induction false} EnterAllSparesOthers<C, E>(env: Env<C, E>, m: Config<C, E>, ss: seq<nat>, s: nat)
    requires PathInChart(env.chart, ss) && s !in ss
    ensures OfState(EnterAll(env, m, ss).timers, s) == OfState(m.timers, s)
    decreases |ss|
  {
    if ss != [] {
      EnterSparesOthers(env, m, ss[0], s);
      EnterAllSparesOthers(env, Enter(env, m, ss[0]), ss[1..], s);
    }
  }

  /** A transition neither exits nor enters a common ancestor-or-self of source and target (for a
      self-transition, a proper ancestor), and leaves that state's timers exactly as they were. */
  lemma TravelSparesCommon<C, E>(env: Env<C, E>, m: Config<C, E>, target: nat, a: nat)
    requires IsTree(env.chart) && Active(env, m) && target < |env.chart.states|
    requires OnPath(env.chart, a, Last(m.path)) && OnPath(env.chart, a, target)
    requires Last(m.path) == target ==> a != target
    ensures Exited(a) !in Route(env.chart, m.path, target) && Entered(a) !in Route(env.chart, m.path, target)
    ensures OfState(Travel(env, m, target).timers, a) == OfState(m.timers, a)
  {
    var c, from := env.chart, Last(m.path);
    var k := Kept(c, m.path, target);
    Routes.RouteSparesCommon(c, from, target, a);
    forall i | 0 <= i < |m.path[k..]| ensures m.path[k..][i] != a {
      assert ExitRoute(c, from, target)[|m.path[k..]| - 1 - i] == m.path[k..][i];
    }
    Rejoin(c, m.path, target);
    ExitToSparesKept(env, m, k, a);
    EnterAllSparesOthers(env, ExitTo(env, m, k), RootPath(c, target)[k..], a);
    RouteAvoids(c, m.path, target, a);
  }

  lemma RouteAvoids(c: Chart, path: seq<nat>, target: nat, a: nat)
    requires IsTree(c) && target < |c.states| && path != []
    requires a !in path[Kept(c, path, target)..] && a !in RootPath(c, target)[Kept(c, path, target)..]
    ensures Exited(a) !in Route(c, path, target) && Entered(a) !in Route(c, path, target)
  {
    hide RootPath, Kept;
    var k := Kept(c, path, target);
    ExitsAvoid(path, k, a);
    EntriesAvoid(RootPath(c, target)[k..], a);
  }

  lemma ExitsAvoid(path: seq<nat>, k: nat, a: nat)
    requires k <= |path| && a !in path[k..]
    ensures Exited(a) !in Exits(path, k) && Entered(a) !in Exits(path, k)
  {
    var exits := Exits(path, k);
    forall i | 0 <= i < |exits| ensures exits[i] != Exited(a) {
      assert path[k..][|path| - 1 - i - k] == path[|path| - 1 - i];
    }
  }

  lemma EntriesAvoid(ss: seq<nat>, a: nat)
    requires a !in ss
    ensures Exited(a) !in Entries(ss) && Entered(a) !in Entries(ss)
  {
    var entries := Entries(ss);
    forall i | 0 <= i < |entries| ensures entries[i] != Entered(a) {
      assert ss[i] != a;
    }
  }
}
