/** What the journal grammar says about default transitions, spelled out on the journal itself. */
module Nesting {
  import opened Wrappers
  import opened Charts
  import opened Tree
  import opened Trace
  import opened Reference
  import opened Observe
  import opened Theorems

  /** Before entry `i`, some event was received or some timer fired: the start step is over. */
  predicate Begun(journal: seq<TraceEvent>, i: nat)
    requires i <= |journal|
  {
    exists j :: 0 <= j < i && (journal[j].EventReceived? || journal[j].TimerFired?)
  }

  /** After the first `k` entries, `b` is the outermost open bracket. */
  predicate Outermost(c: Chart, journal: seq<TraceEvent>, k: nat, b: Bracket)
    requires k <= |journal|
  {
    var st := Replay(c, journal[..k]);
    st.Some? && st.value.open != [] && st.value.open[0] == b
  }

  predicate IsHandlerFiring(e: TraceEvent) {
    e.TransitionFired? && !e.reason.Internal? && e.from.Some?
  }

  /** Entry `j` opens a handler's transition whose bracket is open from then until entry `i`. */
  predicate Encloses(c: Chart, journal: seq<TraceEvent>, j: nat, i: nat)
    requires i <= |journal|
  {
    && j < i && IsHandlerFiring(journal[j])
    && forall k :: j < k <= i ==> Outermost(c, journal, k, InTransition(journal[j].from.value, journal[j].to))
  }

  lemma {:induction false} ReplayPrefix(c: Chart, journal: seq<TraceEvent>, n: nat)
    requires Replay(c, journal).Some? && n <= |journal|
    ensures Replay(c, journal[..n]).Some?
    decreases |journal|
  {
    if n == |journal| {
      assert journal[..n] == journal;
    } else {
      ReplayPrefix(c, journal[..|journal| - 1], n);
      assert journal[..|journal| - 1][..n] == journal[..n];
    }
  }

  lemma ReplayNext(c: Chart, journal: seq<TraceEvent>, n: nat)
    requires Replay(c, journal).Some? && n < |journal|
    ensures Replay(c, journal[..n]).Some? && Replay(c, journal[..n + 1]).Some?
    ensures Replay(c, journal[..n + 1]) == ScanEvent(c, Replay(c, journal[..n]).value, journal[n])
  {
    ReplayPrefix(c, journal, n);
    ReplayPrefix(c, journal, n + 1);
    assert journal[..n + 1][..n] == journal[..n];
  }

  /** One event either keeps the outermost bracket and the phase, or is met with none open. */
  lemma OutermostStays(c: Chart, st: Scan, e: TraceEvent)
    requires ScanEvent(c, st, e).Some?
    ensures var st' := ScanEvent(c, st, e).value;
      st.open != [] && st'.open != [] ==> st'.open[0] == st.open[0] && st'.phase == st.phase
    ensures var st' := ScanEvent(c, st, e).value;
      st.open == [] && st'.open != [] && st'.open[0].InTransition? && st'.phase.Running? ==>
        IsHandlerFiring(e) && st'.open[0] == InTransition(e.from.value, e.to)
    ensures var st' := ScanEvent(c, st, e).value;
      st'.phase.Fresh? || st'.phase.Starting? ==>
        (st.phase.Fresh? || st.phase.Starting?) && !e.EventReceived? && !e.TimerFired?
  {
  }

  /** The handler's transition an open one stands for, and whether the start step is over. */
  lemma {:induction false} Enclosing(c: Chart, journal: seq<TraceEvent>, n: nat) returns (j: nat)
    requires Replay(c, journal).Some? && n <= |journal|
    ensures Replay(c, journal[..n]).Some?
    ensures var st := Replay(c, journal[..n]).value;
      && (st.phase.Running? && st.open != [] && st.open[0].InTransition? ==> Encloses(c, journal, j, n))
      && (st.phase.Fresh? || st.phase.Starting? ==> !Begun(journal, n))
  {
    hide ScanEvent;
    j := 0;
    if n == 0 {
      assert journal[..0] == [];
    } else {
      ReplayNext(c, journal, n - 1);
      j := Enclosing(c, journal, n - 1);
      var before, after := Replay(c, journal[..n - 1]).value, Replay(c, journal[..n]).value;
      OutermostStays(c, before, journal[n - 1]);
      if after.phase.Running? && after.open != [] && after.open[0].InTransition? {
        if before.open == [] {
          j := n - 1;
        } else {
          assert Outermost(c, journal, n - 1, InTransition(journal[j].from.value, journal[j].to));
        }
        assert Outermost(c, journal, n, after.open[0]);
      }
    }
  }

  /** Every default fired in a run is one the innermost state declares; once the start step is
      over, it is directly inside the transition of the handler that caused it, which is still open. */
  lemma DefaultsNest<C, E>(env: Env<C, E>, ctx: C, inputs: seq<Input<E>>, i: nat) returns (j: nat)
    requires Ready(env.chart) && i < |Run(env, ctx, inputs).journal|
    requires Run(env, ctx, inputs).journal[i].TransitionFired? && Run(env, ctx, inputs).journal[i].reason.Internal?
    ensures var c, journal := env.chart, Run(env, ctx, inputs).journal;
      var st := Replay(c, journal[..i]);
      && st.Some? && st.value.active != [] && journal[i].from == Some(Last(st.value.active))
      && DeclaresDefault(c, Last(st.value.active), journal[i].to)
      && (Begun(journal, i) ==> |st.value.open| == 1 && Encloses(c, journal, j, i))
  {
    hide RunLog, ApplyAll, Encloses, Begun;
    var c, journal := env.chart, Run(env, ctx, inputs).journal;
    JournalReplaysToActivePath(env, ctx, inputs);
    ReplayNext(c, journal, i);
    j := Enclosing(c, journal, i);
  }
}
