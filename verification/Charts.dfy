/** Option, as used for the source's `Option<u16>` values, and the search that yields one. */
module Wrappers {
  datatype Option<+T> = None | Some(value: T)

  /** Where `x` is first found. */
  method Position<T(==)>(xs: seq<T>, x: T) returns (at: Option<nat>)
    ensures at.Some? <==> x in xs
    ensures at.Some? ==> at.value < |xs| && xs[at.value] == x && x !in xs[..at.value]
  {
    var i := 0;
    while i < |xs|
      invariant i <= |xs| && x !in xs[..i]
    {
      if xs[i] == x { return Some(i); }
      i := i + 1;
    }
    at := None;
  }
}

/** The lowered and resolved chart: what `build_ir` followed by `resolve_transitions`
    hands to validation and code generation. States are numbered from the root, 0. */
module Charts {
  import opened Wrappers

  /** The no-handler and no-such-variant sentinel, and the largest table offset. */
  const U16_MAX: nat := 0xFFFF

  /** `as u16`: the low 16 bits. */
  function AsU16(n: nat): nat {
    n % 0x1_0000
  }

  datatype Trigger = Event(event: nat) | Duration(timer: nat)

  datatype HandlerKind = Transition(target: nat) | Action(action: nat)

  datatype Handler = Handler(trigger: Trigger, kind: HandlerKind, declIndex: nat)

  datatype DurationTrigger = DurationTrigger(ns: nat, repeats: bool)

  /** `defaultTarget` is the resolved `default(...)` declaration: any state of the chart. */
  datatype State = State(
    parent: Option<nat>, depth: nat, defaultTarget: Option<nat>,
    entries: seq<nat>, exits: seq<nat>, handlers: seq<Handler>,
    children: seq<nat>, ownedTimers: seq<nat>, durings: nat)

  datatype Chart = Chart(
    hash: nat, states: seq<State>, nEvents: nat,
    durations: seq<DurationTrigger>, terminate: Option<nat>)

  /** A timer starts with the low 64 bits of its duration in nanoseconds. */
  function FullTime(c: Chart, t: nat): nat {
    if t < |c.durations| then c.durations[t].ns % 0x1_0000_0000_0000_0000 else 0
  }

  /** Root first, parents before children, depths counted from the root. */
  predicate IsTree(c: Chart) {
    && 0 < |c.states|
    && c.states[0].parent == None && c.states[0].depth == 0
    && forall s :: 0 < s < |c.states| ==> IsChild(c, s)
  }

  predicate IsChild(c: Chart, s: nat)
    requires s < |c.states|
  {
    && c.states[s].parent.Some?
    && c.states[s].parent.value < s
    && c.states[s].depth == c.states[c.states[s].parent.value].depth + 1
  }

  predicate HandlersResolved(c: Chart, s: State) {
    && (forall i :: 0 <= i < |s.handlers| ==> s.handlers[i].declIndex == i)
    && (forall i :: 0 <= i < |s.handlers| ==> s.handlers[i].kind.Transition? ==> s.handlers[i].kind.target < |c.states|)
    && (forall i :: 0 <= i < |s.handlers| ==> s.handlers[i].trigger.Event? ==> s.handlers[i].trigger.event < c.nEvents)
    && (forall i :: 0 <= i < |s.handlers| ==> s.handlers[i].trigger.Duration? ==>
          s.handlers[i].trigger.timer < |c.durations| && s.handlers[i].trigger.timer in s.ownedTimers)
  }

  /** A state owns exactly the durations it has handlers for, each once. */
  predicate OwnedTimersOk(c: Chart, s: State) {
    && (forall t :: t in s.ownedTimers ==> t < |c.durations| && HasTrigger(s, Duration(t)))
    && (forall i, j :: 0 <= i < j < |s.ownedTimers| ==> s.ownedTimers[i] != s.ownedTimers[j])
  }

  predicate HasTrigger(s: State, trigger: Trigger) {
    exists i :: 0 <= i < |s.handlers| && s.handlers[i].trigger == trigger
  }

  predicate StateOk(c: Chart, s: nat)
    requires s < |c.states|
  {
    HandlersResolved(c, c.states[s]) && OwnedTimersOk(c, c.states[s]) && DefaultResolved(c, s)
  }

  predicate DefaultResolved(c: Chart, s: nat)
    requires s < |c.states|
  {
    c.states[s].defaultTarget.Some? ==> c.states[s].defaultTarget.value < |c.states|
  }

  predicate DefaultsResolved(c: Chart) {
    forall s: nat :: s < |c.states| ==> DefaultResolved(c, s)
  }

  predicate WellFormed(c: Chart) {
    && IsTree(c)
    && (forall s: nat :: s < |c.states| ==> StateOk(c, s))
    && (c.terminate.Some? ==> c.terminate.value < c.nEvents)
  }
}
