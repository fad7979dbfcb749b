/** Event bubbling and the precomputed event-dispatch and trigger-lookup tables. */
module Dispatch {
  import opened Wrappers
  import opened Charts
  import opened Tree
  import opened Flat
  import opened Handlers

  predicate Handles(c: Chart, s: nat, trigger: Trigger) {
    s < |c.states| && Declared(c.states[s].handlers, trigger) != []
  }

  /** The innermost state of an active path that handles `trigger`, searching towards the root. */
  function Bubble(c: Chart, path: seq<nat>, trigger: Trigger): (h: Option<nat>)
    ensures h.Some? ==> h.value in path && Handles(c, h.value, trigger)
  {
    if path == [] then None
    else if Handles(c, Last(path), trigger) then Some(Last(path))
    else Bubble(c, path[..|path| - 1], trigger)
  }

  /** No state of `path` at `from` or deeper handles the trigger. */
  predicate NoneHandles(c: Chart, path: seq<nat>, from: nat, trigger: Trigger) {
    forall i :: from <= i < |path| ==> !Handles(c, path[i], trigger)
  }

  /** What bubbling finds: `None` exactly when nobody on the path handles the trigger, otherwise
      the state at the one index that handles it with nobody deeper doing so. */
  lemma {:induction false} BubbleFindsInnermost(c: Chart, path: seq<nat>, trigger: Trigger) returns (at: nat)
    ensures Bubble(c, path, trigger) == None <==> NoneHandles(c, path, 0, trigger)
    ensures Bubble(c, path, trigger).Some? ==> at < |path| && Bubble(c, path, trigger) == Some(path[at])
    ensures Bubble(c, path, trigger).Some? ==> Handles(c, path[at], trigger) && NoneHandles(c, path, at + 1, trigger)
  {
    at := 0;
    if path != [] {
      if Handles(c, Last(path), trigger) {
        at := |path| - 1;
      } else {
        at := BubbleFindsInnermost(c, path[..|path| - 1], trigger);
        BubbleStep(c, path, |path|, trigger);
      }
    }
  }

  lemma BubbleStep(c: Chart, path: seq<nat>, n: nat, trigger: Trigger)
    requires 0 < n <= |path|
    ensures Bubble(c, path[..n], trigger) ==
      if Handles(c, path[n - 1], trigger) then Some(path[n - 1]) else Bubble(c, path[..n - 1], trigger)
  {
    assert path[..n][..n - 1] == path[..n - 1];
  }

  datatype Entry = Entry(handlerState: nat, group: Group)

  const NO_HANDLER := Entry(U16_MAX, Group([], None))

  function GroupAt(c: Chart, s: nat, trigger: Trigger): Group
    requires s < |c.states|
  {
    GroupOf(Declared(c.states[s].handlers, trigger))
  }

  /** The entry a (state, event) pair must have for the lookup to replace the bubble walk. */
  function EntryFor(c: Chart, s: nat, event: nat): Entry
    requires IsTree(c) && s < |c.states|
  {
    match Bubble(c, RootPath(c, s), Event(event))
    case None => NO_HANDLER
    case Some(h) => Entry(h, GroupAt(c, h, Event(event)))
  }

  datatype DispatchTables = DispatchTables(
    dispatch: seq<Entry>, lookup: seq<map<Trigger, Group>>)

  predicate DispatchAt(c: Chart, t: DispatchTables, s: nat, e: nat)
    requires IsTree(c) && s < |c.states|
  {
    var k := PairIndex(s, e, c.nEvents);
    k < |t.dispatch| && t.dispatch[k] == EntryFor(c, s, e)
  }

  ghost predicate LookupAt(c: Chart, t: DispatchTables, s: nat)
    requires s < |c.states|
  {
    s < |t.lookup| && GroupsOf(t.lookup[s], c.states[s].handlers)
  }

  ghost predicate DispatchOk(c: Chart, t: DispatchTables)
    requires IsTree(c)
  {
    && (forall s: nat, e: nat :: s < |c.states| && e < c.nEvents ==> DispatchAt(c, t, s, e))
    && |t.lookup| == |c.states|
    && (forall s: nat :: s < |c.states| ==> LookupAt(c, t, s))
  }

  /** Groups every state's handlers by trigger. */
  method GroupStates(c: Chart) returns (perState: seq<map<Trigger, Group>>)
    requires WellFormed(c)
    ensures |perState| == |c.states|
    ensures forall s: nat :: s < |c.states| ==> GroupsOf(perState[s], c.states[s].handlers)
  {
    perState := [];
    var s := 0;
    while s < |c.states|
      invariant s == |perState| <= |c.states|
      invariant forall k: nat :: k < s ==> GroupsOf(perState[k], c.states[k].handlers)
    {
      assert StateOk(c, s);
      var m := GroupHandlers(c.states[s].handlers);
      perState := perState + [m];
      s := s + 1;
    }
  }

  /** The bubble walk, done once at build time. */
  method Resolve(c: Chart, perState: seq<map<Trigger, Group>>, state: nat, event: nat) returns (r: Entry)
    requires IsTree(c) && state < |c.states| && |perState| == |c.states|
    requires forall s: nat :: s < |c.states| ==> GroupsOf(perState[s], c.states[s].handlers)
    ensures r == EntryFor(c, state, event)
  {
    ghost var p := RootPath(c, state);
    ghost var left: nat := |p|;
    assert p[..left] == p;
    var cur := Some(state);
    while cur.Some?
      invariant left <= |p|
      invariant cur == if left == 0 then None else Some(p[left - 1])
      invariant Bubble(c, p[..left], Event(event)) == Bubble(c, p, Event(event))
      decreases left
    {
      StepUp(c, state, left - 1);
      BubbleStep(c, p, left, Event(event));
      assert GroupIs(perState[cur.value], c.states[cur.value].handlers, Event(event));
      if Event(event) in perState[cur.value] {
        return Entry(cur.value, perState[cur.value][Event(event)]);
      }
      cur := c.states[cur.value].parent;
      left := left - 1;
    }
    r := NO_HANDLER;
  }

  /** The table's entries in row-major order. Event ids run up to the 16-bit number of events, so
      that the table is whole exactly when that number fits. */
  method DispatchEntries(c: Chart, perState: seq<map<Trigger, Group>>) returns (out: seq<Entry>)
    requires IsTree(c) && |perState| == |c.states|
    requires forall s: nat :: s < |c.states| ==> GroupsOf(perState[s], c.states[s].handlers)
    ensures |out| == PairIndex(|c.states|, 0, AsU16(c.nEvents))
    ensures c.nEvents <= U16_MAX ==>
      forall s: nat, e: nat :: s < |c.states| && e < c.nEvents ==> DispatchAt(c, DispatchTables(out, perState), s, e)
  {
    var n, m := |c.states|, AsU16(c.nEvents);
    out := [];
    var state := 0;
    while state < n
      invariant state <= n && |out| == PairIndex(state, 0, m)
      invariant m == c.nEvents ==>
        forall s: nat, e: nat :: s < state && e < m ==> DispatchAt(c, DispatchTables(out, perState), s, e)
    {
      var event := 0;
      while event < m
        invariant event <= m && |out| == PairIndex(state, event, m)
        invariant m == c.nEvents ==>
          forall s: nat, e: nat :: s < state && e < m ==> DispatchAt(c, DispatchTables(out, perState), s, e)
        invariant m == c.nEvents ==>
          forall e: nat :: e < event ==> DispatchAt(c, DispatchTables(out, perState), state, e)
      {
        var r := Resolve(c, perState, state, event);
        if m == c.nEvents { AppendKeeps(c, DispatchTables(out, perState), state, event, r); }
        out := out + [r];
        event := event + 1;
      }
      PairIndexNext(state, m);
      state := state + 1;
    }
  }

  /** The generated array is declared with one entry per state and event; anything shorter does
      not compile. */
  method ComputeEventDispatch(c: Chart) returns (r: Option<DispatchTables>)
    requires WellFormed(c)
    ensures r.Some? <==> c.nEvents <= U16_MAX
    ensures r.Some? ==> DispatchOk(c, r.value)
  {
    var perState := GroupStates(c);
    var out := DispatchEntries(c, perState);
    WholeIffFits(|c.states|, c.nEvents);
    if |out| != PairIndex(|c.states|, 0, c.nEvents) { return None; }
    r := Some(DispatchTables(out, perState));
    forall s: nat | s < |c.states| ensures LookupAt(c, r.value, s) {}
  }

  lemma LowBits(m: nat)
    ensures AsU16(m) <= m && (AsU16(m) == m <==> m <= U16_MAX)
  {
  }

  lemma StrictlyMore(n: nat, a: nat, b: nat)
    requires n > 0 && a <= b
    ensures PairIndex(n, 0, a) == PairIndex(n, 0, b) <==> a == b
  {
    if a < b {
      MulMonotone(a + 1, b, n);
      assert (a + 1) * n == a * n + n;
      assert n * a == a * n && n * b == b * n;
    }
  }

  lemma WholeIffFits(n: nat, m: nat)
    requires n > 0
    ensures PairIndex(n, 0, AsU16(m)) == PairIndex(n, 0, m) <==> m <= U16_MAX
  {
    hide AsU16, PairIndex;
    LowBits(m);
    StrictlyMore(n, AsU16(m), m);
  }

  lemma AppendKeeps(c: Chart, t: DispatchTables, state: nat, event: nat, r: Entry)
    requires IsTree(c) && state < |c.states| && |t.dispatch| == PairIndex(state, event, c.nEvents)
    requires r == EntryFor(c, state, event)
    ensures var t' := t.(dispatch := t.dispatch + [r]);
      && DispatchAt(c, t', state, event)
      && |t'.dispatch| == PairIndex(state, event + 1, c.nEvents)
      && forall s: nat, e: nat :: s < |c.states| && DispatchAt(c, t, s, e) ==> DispatchAt(c, t', s, e)
  {
  }
}
