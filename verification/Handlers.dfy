/** Handlers of one state: declaration order, grouping by trigger, and the ordering rule. */
module Handlers {
  import opened Wrappers
  import opened Charts

  datatype Group = Group(actions: seq<nat>, target: Option<nat>)

  /** What a state declares for a trigger, in declaration order. */
  function Declared(hs: seq<Handler>, trigger: Trigger): seq<HandlerKind> {
    if hs == [] then []
    else
      var last := hs[|hs| - 1];
      Declared(hs[..|hs| - 1], trigger) + if last.trigger == trigger then [last.kind] else []
  }

  /** The grouped reading of a list of handlers: actions in order, last transition target. */
  function GroupOf(kinds: seq<HandlerKind>): Group {
    if kinds == [] then Group([], None)
    else Extend(GroupOf(kinds[..|kinds| - 1]), kinds[|kinds| - 1])
  }

  function Extend(g: Group, kind: HandlerKind): Group {
    match kind
    case Action(a) => g.(actions := g.actions + [a])
    case Transition(t) => g.(target := Some(t))
  }

  /** The handlers a group stands for: every action, then the transition. */
  function Expand(g: Group): seq<HandlerKind> {
    Actions(g.actions) + if g.target.Some? then [Transition(g.target.value)] else []
  }

  function Actions(ids: seq<nat>): (r: seq<HandlerKind>)
    ensures |r| == |ids| && forall i :: 0 <= i < |ids| ==> r[i] == Action(ids[i])
  {
    seq(|ids|, i requires 0 <= i < |ids| => Action(ids[i]))
  }

  /** A handler followed by another one for the same trigger is an action: a state has at most
      one transition per trigger, declared after all of the trigger's actions. */
  predicate TransitionsLast(hs: seq<Handler>) {
    forall i, j :: 0 <= i < j < |hs| ==> InOrder(hs, i, j)
  }

  predicate InOrder(hs: seq<Handler>, i: nat, j: nat)
    requires i < j < |hs|
  {
    hs[i].trigger == hs[j].trigger ==> hs[i].kind.Action?
  }

  predicate TransitionLast(kinds: seq<HandlerKind>) {
    forall i :: 0 <= i < |kinds| - 1 ==> kinds[i].Action?
  }

  lemma {:induction false} ExpandIsExact(kinds: seq<HandlerKind>)
    ensures Expand(GroupOf(kinds)) == kinds <==> TransitionLast(kinds)
    ensures (forall i :: 0 <= i < |kinds| ==> kinds[i].Action?) ==> GroupOf(kinds).target == None
  {
    if kinds != [] {
      var front, last := kinds[..|kinds| - 1], kinds[|kinds| - 1];
      ExpandIsExact(front);
      var g := GroupOf(front);
      assert TransitionLast(Expand(Extend(g, last)));
      if TransitionLast(kinds) {
        assert Expand(g) == front && g.target == None;
        assert Expand(Extend(g, last)) == front + [last];
      }
    }
  }

  /** The declared handlers of a trigger, as the positions they are declared at. */
  lemma {:induction false} DeclaredAt(hs: seq<Handler>, trigger: Trigger) returns (at: seq<nat>)
    ensures |at| == |Declared(hs, trigger)|
    ensures forall i :: 0 <= i < |at| ==> at[i] < |hs|
    ensures forall i :: 0 <= i < |at| ==> hs[at[i]].trigger == trigger && hs[at[i]].kind == Declared(hs, trigger)[i]
    ensures forall i, j :: 0 <= i < j < |at| ==> at[i] < at[j]
    ensures forall k :: 0 <= k < |hs| && hs[k].trigger == trigger ==> k in at
  {
    if hs == [] { return []; }
    var n := |hs| - 1;
    at := DeclaredAt(hs[..n], trigger);
    if hs[n].trigger == trigger {
      var front := at;
      at := at + [n];
      forall k | 0 <= k < |hs| && hs[k].trigger == trigger ensures k in at {
        if k < n { assert hs[..n][k].trigger == trigger; assert k in front; }
        else { assert at[|front|] == k; }
      }
    } else {
      forall k | 0 <= k < |hs| && hs[k].trigger == trigger ensures k in at {
        assert hs[..n][k].trigger == trigger;
      }
    }
  }

  lemma LastAmongDeclared(hs: seq<Handler>, t: Trigger)
    requires TransitionsLast(hs)
    ensures TransitionLast(Declared(hs, t))
  {
    var at := DeclaredAt(hs, t);
    forall i | 0 <= i < |at| - 1 ensures Declared(hs, t)[i].Action? {
      assert at[i] < at[|at| - 1];
      assert InOrder(hs, at[i], at[|at| - 1]);
    }
  }

  lemma EarlierIsAction(hs: seq<Handler>, i: nat, j: nat)
    requires i < j < |hs| && hs[i].trigger == hs[j].trigger
    requires TransitionLast(Declared(hs, hs[i].trigger))
    ensures hs[i].kind.Action?
  {
    var t := hs[i].trigger;
    var at := DeclaredAt(hs, t);
    var x: nat :| x < |at| && at[x] == i;
    var y: nat :| y < |at| && at[y] == j;
    if y <= x {
      Ascending(at, y, x);
      assert false;
    }
    assert Declared(hs, t)[x] == hs[i].kind;
  }

  lemma Ascending(at: seq<nat>, i: nat, j: nat)
    requires i <= j < |at| && forall i, j :: 0 <= i < j < |at| ==> at[i] < at[j]
    ensures at[i] <= at[j]
  {
  }

  /** Grouping a trigger's handlers loses and reorders nothing. */
  predicate GroupedExactly(hs: seq<Handler>, t: Trigger) {
    Expand(GroupOf(Declared(hs, t))) == Declared(hs, t)
  }

  /** Grouping is exact for every trigger exactly when every state puts its one transition per
      trigger last. */
  lemma GroupingIsExact(hs: seq<Handler>)
    ensures (forall t :: GroupedExactly(hs, t)) <==> TransitionsLast(hs)
  {
    if TransitionsLast(hs) {
      forall t ensures GroupedExactly(hs, t) {
        LastAmongDeclared(hs, t);
        ExpandIsExact(Declared(hs, t));
      }
    } else {
      var i, j :| 0 <= i < j < |hs| && !InOrder(hs, i, j);
      var t := hs[i].trigger;
      if GroupedExactly(hs, t) {
        ExpandIsExact(Declared(hs, t));
        EarlierIsAction(hs, i, j);
        assert false;
      }
    }
  }

  /** Stable sort by declaration index. */
  function SortByDecl(hs: seq<Handler>): seq<Handler> {
    if hs == [] then [] else InsertByDecl(SortByDecl(hs[..|hs| - 1]), hs[|hs| - 1])
  }

  function InsertByDecl(sorted: seq<Handler>, h: Handler): seq<Handler> {
    if sorted == [] || sorted[|sorted| - 1].declIndex <= h.declIndex then sorted + [h]
    else InsertByDecl(sorted[..|sorted| - 1], h) + [sorted[|sorted| - 1]]
  }

  predicate InDeclOrder(hs: seq<Handler>) {
    forall i :: 0 <= i < |hs| ==> hs[i].declIndex == i
  }

  lemma {:induction false} SortKeepsDeclOrder(hs: seq<Handler>)
    requires InDeclOrder(hs)
    ensures SortByDecl(hs) == hs
  {
    if hs != [] {
      SortKeepsDeclOrder(hs[..|hs| - 1]);
    }
  }

  /** One entry per trigger the state mentions, holding that trigger's group. */
  ghost predicate GroupsOf(m: map<Trigger, Group>, hs: seq<Handler>) {
    forall t :: GroupIs(m, hs, t)
  }

  predicate GroupIs(m: map<Trigger, Group>, hs: seq<Handler>, t: Trigger) {
    (t in m <==> Declared(hs, t) != []) && (t in m ==> m[t] == GroupOf(Declared(hs, t)))
  }

  /** The per-state aggregation both the event table and the timer lookup are generated from. */
  method GroupHandlers(handlers: seq<Handler>) returns (m: map<Trigger, Group>)
    requires InDeclOrder(handlers)
    ensures GroupsOf(m, handlers)
  {
    var hs := SortByDecl(handlers);
    SortKeepsDeclOrder(handlers);
    m := map[];
    var i := 0;
    while i < |hs|
      invariant i <= |hs|
      invariant GroupsOf(m, hs[..i])
    {
      var h := hs[i];
      assert hs[..i + 1][..i] == hs[..i];
      ghost var before := m;
      var g := if h.trigger in m then m[h.trigger] else Group([], None);
      m := m[h.trigger := Extend(g, h.kind)];
      ghost var seen := hs[..i + 1];
      forall t ensures GroupIs(m, seen, t) {
        assert GroupIs(before, hs[..i], t) && GroupIs(before, hs[..i], h.trigger);
        var d := Declared(hs[..i], t);
        if t == h.trigger {
          assert Declared(seen, t) == d + [h.kind];
          assert (d + [h.kind])[..|d|] == d;
        } else {
          assert Declared(seen, t) == d;
        }
      }
      i := i + 1;
    }
    assert hs[..i] == hs;
  }

  /** The per-trigger ordering rules of `validate`, for one state. */
  method ValidateHandlers(hs: seq<Handler>) returns (ok: bool)
    requires InDeclOrder(hs)
    ensures ok <==> TransitionsLast(hs)
  {
    var transitionSeen: map<Trigger, nat> := map[];
    var lastAction: map<Trigger, nat> := map[];
    var i := 0;
    while i < |hs|
      invariant i <= |hs|
      invariant forall a, b :: 0 <= a < b < i ==> InOrder(hs, a, b)
      invariant forall k :: 0 <= k < i && hs[k].kind.Transition? ==> hs[k].trigger in transitionSeen
      invariant forall t :: t in transitionSeen ==>
        transitionSeen[t] < i && hs[transitionSeen[t]].trigger == t && hs[transitionSeen[t]].kind.Transition?
      invariant forall t :: t in lastAction ==> lastAction[t] < i
    {
      var h := hs[i];
      match h.kind {
        case Transition(_) =>
          if h.trigger in transitionSeen {
            assert !InOrder(hs, transitionSeen[h.trigger], i);
            return false;
          }
          transitionSeen := transitionSeen[h.trigger := h.declIndex];
          if h.trigger in lastAction && lastAction[h.trigger] > h.declIndex { return false; }
        case Action(_) =>
          if h.trigger in transitionSeen && transitionSeen[h.trigger] < h.declIndex {
            assert !InOrder(hs, transitionSeen[h.trigger], i);
            return false;
          }
          lastAction := lastAction[h.trigger := h.declIndex];
      }
      i := i + 1;
    }
    ok := true;
  }
}
