/** The smallest accepted chart that loses a timer: two nested states sharing one duration. */
module Sharing {
  import opened Wrappers
  import opened Charts
  import opened Tree
  import opened Validate
  import Trace
  import opened Reference
  import opened TimerFacts
  import opened Capacity
  import opened RestingStates
  import opened Runs
  import opened Theorems

  function Owner(parent: Option<nat>, depth: nat, default: Option<nat>, children: seq<nat>): State {
    State(parent, depth, default, [], [], [Handler(Duration(0), Action(0), 0)], children, [0], 0)
  }

  /** The root, and a nested state it defaults to; each has a handler for the one duration. */
  function TwoOwners(ns: nat): Chart {
    Chart(0, [Owner(None, 0, Some(1), [1]), Owner(Some(0), 1, None, [])], 0, [DurationTrigger(ns, false)], None)
  }

  lemma SharedIsReady(ns: nat)
    ensures Ready(TwoOwners(ns)) && !HasDefaultCycle(TwoOwners(ns)) && Accepted(TwoOwners(ns))
  {
    var c := TwoOwners(ns);
    forall s: nat | s < 2 ensures StateOk(c, s) && OrderedAt(c, s) && StateAccepted(c, s) {
      assert c.states[s].handlers[0].trigger == Duration(0);
      assert HasTrigger(c.states[s], Duration(0));
    }
    assert IsRanking(c, [1, 0]);
    RankingExcludesCycles(c);
  }

  lemma SharedPaths(ns: nat)
    ensures var c := TwoOwners(ns);
      && Ready(c) && RootPath(c, 0) == [0] && RootPath(c, 1) == [0, 1]
      && OwnedCount(c, [0, 1]) == 2 && TimerCapacity(c) == 1
  {
    var c := TwoOwners(ns);
    SharedIsReady(ns);
    assert RootPath(c, 0) == [0];
    assert RootPath(c, 1) == [0, 1];
    assert [0, 1][..1] == [0] && [0][..0] == [];
    assert OwnedCount(c, []) == 0;
    assert OwnedCount(c, [0]) == OwnedCount(c, []) + OwnedBy(c, 0);
    assert OwnedCount(c, [0, 1]) == OwnedCount(c, [0]) + OwnedBy(c, 1);
  }

  lemma SharedRest(ns: nat)
    ensures Ready(TwoOwners(ns)) && RestOf(TwoOwners(ns), 0) == 1
  {
    SharedPaths(ns);
    FollowedStep(TwoOwners(ns), 0, 1);
  }

  /** It passes validation, and its first step loses a timer: the machine rests in the nested
      state, no timer has fired, both states own one, and the table holds no entry for one of them. */
  lemma SharedLosesATimer<C, E>(env: Env<C, E>, ctx: C, ns: nat)
    requires env.chart == TwoOwners(ns)
    ensures Ready(env.chart)
    ensures var m := Run(env, ctx, [Advance(0)]);
      && m.path == [0, 1] && !AllArmed(env.chart, m.timers, m.path)
      && ReadLog(RunLog(env, ctx, [Advance(0)]), 0, 0).fired == []
  {
    hide Enter, FollowDefaults, Followed, RestOf, RootPath;
    SharedPaths(ns);
    SharedRest(ns);
    var began := Log(Init<C, E>(ctx), [Trace.Started(0)]);
    DefaultsFollowedAreFew(env, Enter(env, began, 0));
    FirstStep(env, ctx);
    OverfullChainLosesATimer(env, ctx, [Advance(0)]);
    NothingFired(env, ctx);
  }

  lemma NothingFired<C, E>(env: Env<C, E>, ctx: C)
    requires Ready(env.chart)
    ensures ReadLog(RunLog(env, ctx, [Advance(0)]), 0, 0).fired == []
  {
    StepReading(env, ctx, [], 0, 0, 0);
    var none: seq<Input<E>> := [];
    assert none + [Advance(0)] == [Advance(0)];
  }

  lemma FirstStep<C, E>(env: Env<C, E>, ctx: C)
    requires Ready(env.chart)
    ensures Run(env, ctx, [Advance(0)]) == Start(env, Init(ctx))
  {
    hide Start;
    var inputs: seq<Input<E>> := [Advance(0)];
    assert inputs[..0] == [];
  }
}
