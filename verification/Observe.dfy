/** What an observer can read off a journal: brackets and the active path, queue traffic, and
    how long ago each timer was armed. */
module Observe {
  import opened Wrappers
  import opened Charts
  import opened Tree
  import opened Trace

  // ----- brackets and the active path -----

  datatype Bracket = InEnter(state: nat) | InExit(state: nat) | InTransition(from: nat, to: nat)

  /** Where a journal stands: not begun, in the start step, past it, told to end, ended. */
  datatype Phase = Fresh | Starting | Running | Ending | Ended

  /** Brackets opened and not closed, and the states entered and not exited. */
  datatype Scan = Scan(open: seq<Bracket>, active: seq<nat>, phase: Phase)

  predicate TopIs(open: seq<Bracket>, b: Bracket) {
    open != [] && open[|open| - 1] == b
  }

  function Pop<T>(s: seq<T>): seq<T>
    requires s != []
  {
    s[..|s| - 1]
  }

  /** A state may be entered directly below the innermost active one; only the root at the top. */
  predicate MayEnter(c: Chart, active: seq<nat>, s: nat) {
    && s < |c.states|
    && c.states[s].parent == if active == [] then None else Some(Last(active))
  }

  predicate DeclaresDefault(c: Chart, s: nat, to: nat) {
    s < |c.states| && c.states[s].defaultTarget == Some(to)
  }

  /** States are entered inside a transition; only the start enters one outside, the first. */
  predicate EnterPlaced(st: Scan) {
    if st.open == [] then st.phase.Starting? && st.active == [] else Last(st.open).InTransition?
  }

  /** States are exited inside a transition; only the end exits them outside. */
  predicate ExitPlaced(st: Scan) {
    if st.open == [] then st.phase.Ending? else Last(st.open).InTransition?
  }

  /** A default fires directly inside the transition that caused it, or in the start step. */
  predicate DefaultPlaced(open: seq<Bracket>, phase: Phase) {
    || (phase.Starting? && open == [])
    || (phase.Running? && |open| == 1 && open[0].InTransition?)
  }

  predicate IsStarted(phase: Phase) {
    phase.Starting? || phase.Running?
  }

  /** The journal grammar, one event at a time; `None` where an event is out of place. */
  function ScanEvent(c: Chart, st: Scan, e: TraceEvent): Option<Scan> {
    var Scan(open, active, phase) := st;
    var keep := Some(st);
    match e
    case EnterBegan(s) =>
      if EnterPlaced(st) && MayEnter(c, active, s) then Some(st.(open := open + [InEnter(s)])) else None
    case Entered(s) =>
      if TopIs(open, InEnter(s)) && MayEnter(c, active, s) then Some(Scan(Pop(open), active + [s], phase)) else None
    case ExitBegan(s) =>
      if ExitPlaced(st) && active != [] && Last(active) == s then Some(st.(open := open + [InExit(s)])) else None
    case Exited(s) =>
      if TopIs(open, InExit(s)) && active != [] && Last(active) == s then
        Some(Scan(Pop(open), Pop(active), phase))
      else None
    case TransitionFired(from, to, reason) =>
      if active == [] || from != Some(Last(active)) then None
      else
        var placed :=
          if reason.Internal? then DefaultPlaced(open, phase) && DeclaresDefault(c, Last(active), to)
          else open == [] && phase.Running?;
        if placed then Some(st.(open := open + [InTransition(Last(active), to)])) else None
    case TransitionComplete(from, to) =>
      if from.Some? && TopIs(open, InTransition(from.value, to)) then Some(st.(open := Pop(open))) else None
    case ActionInvoked(s, _, kind) =>
      var placed := match kind
        case EntryAction => TopIs(open, InEnter(s))
        case ExitAction => TopIs(open, InExit(s))
        case HandlerAction => open == [] && s in active;
      if placed then keep else None
    case DuringStarted(s, _) => if TopIs(open, InEnter(s)) then keep else None
    case DuringCancelled(s, _) => if TopIs(open, InExit(s)) then keep else None
    case TimerArmed(s, _, _) => if TopIs(open, InEnter(s)) || (open == [] && s in active) then keep else None
    case TimerCancelled(s, _) => if TopIs(open, InExit(s)) then keep else None
    case TimerFired(s, _) => if open == [] && s in active && IsStarted(phase) then Some(st.(phase := Running)) else None
    case EventDelivered(s, _) => if open == [] && s in active then keep else None
    case EmitQueued(_) => keep
    case EmitFailed(_) => keep
    case EventReceived(_) =>
      if open == [] && active != [] && IsStarted(phase) then Some(st.(phase := Running)) else None
    case EventDropped(_) => if open == [] && active != [] then keep else None
    case TerminateRequested(_) =>
      if open == [] && active != [] && phase.Running? then Some(st.(phase := Ending)) else None
    case Started(_) => if st == Scan([], [], Fresh) then Some(st.(phase := Starting)) else None
    case Terminated => if st == Scan([], [], Ending) then Some(st.(phase := Ended)) else None
  }

  function Replay(c: Chart, journal: seq<TraceEvent>): Option<Scan> {
    if journal == [] then Some(Scan([], [], Fresh))
    else
      match Replay(c, journal[..|journal| - 1])
      case None => None
      case Some(st) => ScanEvent(c, st, journal[|journal| - 1])
  }

  lemma ReplayAppend(c: Chart, journal: seq<TraceEvent>, e: TraceEvent, st: Scan)
    requires Replay(c, journal) == Some(st)
    ensures Replay(c, journal + [e]) == ScanEvent(c, st, e)
  {
    assert (journal + [e])[..|journal|] == journal;
  }

  lemma {:induction false} ReplayKeeps(c: Chart, journal: seq<TraceEvent>, es: seq<TraceEvent>, st: Scan)
    requires Replay(c, journal) == Some(st)
    requires forall i :: 0 <= i < |es| ==> ScanEvent(c, st, es[i]) == Some(st)
    ensures Replay(c, journal + es) == Some(st)
  {
    if es == [] {
      assert journal + es == journal;
    } else {
      var n := |es| - 1;
      ReplayKeeps(c, journal, es[..n], st);
      ReplayAppend(c, journal + es[..n], es[n], st);
      assert journal + es == journal + es[..n] + [es[n]];
    }
  }

  // ----- readings -----

  /** What has been seen so far: ids that came into the queue and ids taken out of it, timers
      fired, states entered and exited, whether an emit has failed since the flag was last
      taken (`None` if one succeeded after that), and how long ago one timer was armed. */
  datatype Reading = Reading(
    inflow: seq<nat>, received: seq<nat>, fired: seq<(nat, nat)>, moves: seq<TraceEvent>,
    flag: Option<bool>, clock: Option<nat>)

  const NOTHING := Reading([], [], [], [], Some(false), None)

  /** Arming resets timer `(s, t)`; firing and cancelling end it. */
  function ClockEvent(x: Option<nat>, e: TraceEvent, s: nat, t: nat): Option<nat> {
    match e
    case TimerArmed(s', t', _) => if s == s' && t == t' then Some(0) else x
    case TimerFired(s', t') => if s == s' && t == t' then None else x
    case TimerCancelled(s', t') => if s == s' && t == t' then None else x
    case _ => x
  }

  function ReadEvent(r: Reading, e: TraceEvent, s: nat, t: nat): Reading {
    match e
    case EmitQueued(id) => r.(inflow := r.inflow + [id], flag := if r.flag == Some(false) then r.flag else None)
    case EmitFailed(_) => r.(flag := if r.flag.Some? then Some(true) else None)
    case EventReceived(id) => r.(received := r.received + [id])
    case TimerFired(s', t') => r.(fired := r.fired + [(s', t')], clock := ClockEvent(r.clock, e, s, t))
    case TimerArmed(_, _, _) => r.(clock := ClockEvent(r.clock, e, s, t))
    case TimerCancelled(_, _) => r.(clock := ClockEvent(r.clock, e, s, t))
    case Entered(_) => r.(moves := r.moves + [e])
    case Exited(_) => r.(moves := r.moves + [e])
    case _ => r
  }

  function Read(r: Reading, es: seq<TraceEvent>, s: nat, t: nat): Reading {
    if es == [] then r else ReadEvent(Read(r, es[..|es| - 1], s, t), es[|es| - 1], s, t)
  }

  lemma ReadOne(r: Reading, es: seq<TraceEvent>, e: TraceEvent, s: nat, t: nat)
    ensures Read(r, es + [e], s, t) == ReadEvent(Read(r, es, s, t), e, s, t)
  {
    assert (es + [e])[..|es|] == es;
  }

  lemma {:induction false} ReadAppend(r: Reading, a: seq<TraceEvent>, b: seq<TraceEvent>, s: nat, t: nat)
    ensures Read(r, a + b, s, t) == Read(Read(r, a, s, t), b, s, t)
  {
    if b == [] {
      assert a + b == a;
    } else {
      ReadAppend(r, a, b[..|b| - 1], s, t);
      assert (a + b)[..|a + b| - 1] == a + b[..|b| - 1];
    }
  }

  /** Events no reading takes note of. */
  predicate IsQuiet(e: TraceEvent) {
    match e
    case EmitQueued(_) => false
    case EmitFailed(_) => false
    case EventReceived(_) => false
    case TimerFired(_, _) => false
    case TimerArmed(_, _, _) => false
    case TimerCancelled(_, _) => false
    case Entered(_) => false
    case Exited(_) => false
    case _ => true
  }

  lemma {:induction false} QuietSays(r: Reading, es: seq<TraceEvent>, s: nat, t: nat)
    requires forall i :: 0 <= i < |es| ==> IsQuiet(es[i])
    ensures Read(r, es, s, t) == r
  {
    if es != [] { QuietSays(r, es[..|es| - 1], s, t); }
  }
}
