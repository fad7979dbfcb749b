/** What lowering and name resolution must produce for each state. */
module Drafts {
  import opened Wrappers
  import opened Charts
  import opened Layouts
  import opened Interning

  /** `slot` is filled in once all states are numbered. */
  datatype DraftKind = ToState(target: string, slot: Option<nat>) | Call(action: nat)

  datatype DraftHandler = DraftHandler(trigger: Trigger, kind: DraftKind, declIndex: nat)

  datatype Draft = Draft(
    name: string, parent: Option<nat>, depth: nat,
    defaultTarget: Option<nat>, defaultName: Option<string>,
    entries: seq<nat>, exits: seq<nat>, handlers: seq<DraftHandler>,
    children: seq<nat>, ownedTimers: seq<nat>, durings: nat)

  function NewDraft(name: string, parent: Option<nat>, depth: nat): Draft {
    Draft(name, parent, depth, None, None, [], [], [], [], [], 0)
  }

  predicate AreNames(table: seq<string>, ids: seq<nat>, names: seq<string>) {
    |ids| == |names| && forall i :: 0 <= i < |ids| ==> IsName(table, ids[i], names[i])
  }

  predicate IsTrigger(names: Names, trigger: Trigger, parsed: ParsedTrigger) {
    match parsed
    case OnEvent(variant) => trigger.Event? && IsName(names.events, trigger.event, variant)
    case OnDuration(key) => trigger.Duration? && IsName(names.durations, trigger.timer, key)
  }

  /** An `every` timer may not lead to a state. */
  predicate IsPlain(h: ParsedHandler, states: set<string>) {
    h.target in states && h.trigger.OnDuration? ==> !h.trigger.key.repeats
  }

  predicate ArePlain(hs: seq<ParsedHandler>, states: set<string>) {
    forall i :: 0 <= i < |hs| ==> IsPlain(hs[i], states)
  }

  predicate AllPlain(nodes: seq<Node>, states: set<string>) {
    forall j :: 0 <= j < |nodes| ==> ArePlain(nodes[j].body.handlers, states)
  }

  predicate IsHandler(names: Names, states: set<string>, h: DraftHandler, parsed: ParsedHandler, i: nat) {
    && IsTrigger(names, h.trigger, parsed.trigger)
    && h.declIndex == i
    && if parsed.target in states then h.kind == ToState(parsed.target, None)
       else h.kind.Call? && IsName(names.actions, h.kind.action, parsed.target)
  }

  predicate AreHandlers(names: Names, states: set<string>, hs: seq<DraftHandler>, parsed: seq<ParsedHandler>) {
    |hs| == |parsed| && forall i :: 0 <= i < |hs| ==> IsHandler(names, states, hs[i], parsed[i], i)
  }

  /** The timers a list of triggers needs, each once, in order of first use. */
  function TimersOf(triggers: seq<Trigger>): seq<nat> {
    if triggers == [] then []
    else
      var timers := TimersOf(triggers[..|triggers| - 1]);
      match triggers[|triggers| - 1]
      case Duration(t) => Insert(timers, t)
      case Event(_) => timers
  }

  lemma {:induction false} TimersOfIsExact(triggers: seq<Trigger>, t: nat)
    ensures t in TimersOf(triggers) <==> Duration(t) in triggers
    ensures NoRepeats(TimersOf(triggers))
  {
    if triggers != [] {
      TimersOfIsExact(triggers[..|triggers| - 1], t);
      assert triggers == triggers[..|triggers| - 1] + [triggers[|triggers| - 1]];
    }
  }

  /** Timers are listed in order of first use: more triggers only add at the end. */
  lemma {:induction false} TimersInOrderOfUse(triggers: seq<Trigger>, k: nat)
    requires k <= |triggers|
    ensures TimersOf(triggers[..k]) <= TimersOf(triggers)
    decreases |triggers|
  {
    if k == |triggers| {
      assert triggers[..k] == triggers;
    } else {
      TimersInOrderOfUse(triggers[..|triggers| - 1], k);
      assert triggers[..|triggers| - 1][..k] == triggers[..k];
    }
  }

  function Triggers(hs: seq<DraftHandler>): (r: seq<Trigger>)
    ensures |r| == |hs| && forall i :: 0 <= i < |hs| ==> r[i] == hs[i].trigger
  {
    seq(|hs|, i requires 0 <= i < |hs| => hs[i].trigger)
  }

  /** `draft` is the lowered form of `node`; targets are not resolved yet. */
  predicate IsLowered(names: Names, states: set<string>, draft: Draft, node: Node) {
    && draft.name == node.name && draft.parent == node.parent && draft.depth == node.depth
    && draft.children == node.kids && draft.durings == node.body.durings
    && draft.defaultName == node.body.defaultTarget && draft.defaultTarget == None
    && AreNames(names.actions, draft.entries, node.body.entries)
    && AreNames(names.actions, draft.exits, node.body.exits)
    && AreHandlers(names, states, draft.handlers, node.body.handlers)
    && draft.ownedTimers == TimersOf(Triggers(draft.handlers))
  }

  predicate AreLowered(names: Names, states: set<string>, drafts: seq<Draft>, nodes: seq<Node>) {
    |drafts| == |nodes| && forall j :: 0 <= j < |nodes| ==> IsLowered(names, states, drafts[j], nodes[j])
  }

  /** Growing tables do not change what is lowered already. */
  lemma LoweredStays(before: Names, after: Names, states: set<string>, drafts: seq<Draft>, nodes: seq<Node>)
    requires AreLowered(before, states, drafts, nodes) && Extends(before, after)
    ensures AreLowered(after, states, drafts, nodes)
  {
    hide TimersOf;
    forall j | 0 <= j < |nodes| ensures IsLowered(after, states, drafts[j], nodes[j]) {
      assert IsLowered(before, states, drafts[j], nodes[j]);
      HandlersStay(before, after, states, drafts[j].handlers, nodes[j].body.handlers);
    }
  }

  lemma NamesStay(before: Names, after: Names, ids: seq<nat>, xs: seq<string>)
    requires AreNames(before.actions, ids, xs) && Extends(before, after)
    ensures AreNames(after.actions, ids, xs)
  {
  }

  lemma NoNames(names: Names, xs: seq<string>)
    requires xs == []
    ensures AddAll(names, Actions(xs)) == names && AreNames(names.actions, [], xs)
  {
  }

  lemma NextName(table: seq<string>, ids: seq<nat>, id: nat, xs: seq<string>, i: nat)
    requires i < |xs| && AreNames(table, ids, xs[..i]) && IsName(table, id, xs[i])
    ensures AreNames(table, ids + [id], xs[..i + 1])
    ensures Actions(xs[..i + 1]) == Actions(xs[..i]) + [OfAction(xs[i])]
  {
    assert xs[..i + 1][..i] == xs[..i];
  }

  lemma HandlersStay(before: Names, after: Names, states: set<string>, hs: seq<DraftHandler>,
      parsed: seq<ParsedHandler>)
    requires AreHandlers(before, states, hs, parsed) && Extends(before, after)
    ensures AreHandlers(after, states, hs, parsed)
  {
    forall i | 0 <= i < |hs| ensures IsHandler(after, states, hs[i], parsed[i], i) {
      assert IsHandler(before, states, hs[i], parsed[i], i);
    }
  }

  /** `after` is `before` followed by the lowered form of `nodes`. */
  predicate IsGrown(names: Names, states: set<string>, before: seq<Draft>, after: seq<Draft>, nodes: seq<Node>) {
    before <= after && AreLowered(names, states, after[|before|..], nodes)
  }

  lemma GrowMore(n1: Names, n2: Names, states: set<string>, d0: seq<Draft>, d1: seq<Draft>, d2: seq<Draft>,
      nodes1: seq<Node>, nodes2: seq<Node>)
    requires IsGrown(n1, states, d0, d1, nodes1) && IsGrown(n2, states, d1, d2, nodes2) && Extends(n1, n2)
    ensures IsGrown(n2, states, d0, d2, nodes1 + nodes2)
  {
    hide IsLowered;
    LoweredStays(n1, n2, states, d1[|d0|..], nodes1);
    assert d2[|d0|..] == d1[|d0|..] + d2[|d1|..];
  }

  lemma GrowOne(names: Names, states: set<string>, before: seq<Draft>, draft: Draft, node: Node)
    requires IsLowered(names, states, draft, node)
    ensures IsGrown(names, states, before, before + [draft], [node])
  {
  }

  lemma LayoutRoot(decl: StateDecl, parent: Option<nat>, depth: nat, at: nat)
    ensures Layout(decl, parent, depth, at)
      == [Layout(decl, parent, depth, at)[0]] + LayoutAll(decl.body.children, at, depth + 1, at + 1)
  {
  }

  lemma CompleteOwn(names: Names, states: set<string>, own: Draft, first: Draft, node: Node)
    requires IsLowered(names, states, own, node.(body := node.body.(defaultTarget := None), kids := []))
    requires first == own.(children := node.kids, defaultName := node.body.defaultTarget)
    ensures IsLowered(names, states, first, node)
  {
  }

  lemma AllPlainSplit(first: Node, rest: seq<Node>, states: set<string>)
    ensures AllPlain([first] + rest, states) <==> ArePlain(first.body.handlers, states) && AllPlain(rest, states)
  {
    hide ArePlain;
    var all := [first] + rest;
    if AllPlain(all, states) {
      assert all[0] == first;
      forall j | 0 <= j < |rest| ensures ArePlain(rest[j].body.handlers, states) { assert all[j + 1] == rest[j]; }
    }
  }

  lemma GrownLength(names: Names, states: set<string>, before: seq<Draft>, after: seq<Draft>, nodes: seq<Node>)
    requires IsGrown(names, states, before, after, nodes)
    ensures before <= after && |after| == |before| + |nodes|
  {
  }

  lemma AllPlainBoth(a: seq<Node>, b: seq<Node>, states: set<string>)
    requires AllPlain(a, states) && AllPlain(b, states)
    ensures AllPlain(a + b, states)
  {
  }

  /** One sibling more. */
  lemma NextDecl(decls: seq<StateDecl>, i: nat, parent: nat, depth: nat, at: nat, states: set<string>)
    requires i < |decls|
    ensures LayoutAll(decls[..i + 1], parent, depth, at)
      == LayoutAll(decls[..i], parent, depth, at) + Layout(decls[i], Some(parent), depth, at + SizeAll(decls[..i]))
    ensures Kids(decls[..i + 1], at) == Kids(decls[..i], at) + [at + SizeAll(decls[..i])]
    ensures OfDecls(decls[..i + 1], states) == OfDecls(decls[..i], states) + OfBody(decls[i].body, states)
  {
    assert Front(decls[..i + 1]) == decls[..i];
  }

  /** When all siblings' subtrees are plain, so is the `i`th. */
  lemma ChildIsPlain(decls: seq<StateDecl>, i: nat, parent: nat, depth: nat, states: set<string>)
    requires i < |decls| && AllPlain(LayoutAll(decls, parent, depth, parent + 1), states)
    ensures AllPlain(Layout(decls[i], Some(parent), depth, parent + 1 + SizeAll(decls[..i])), states)
  {
    hide Layout, LayoutAll, SizeAll, Size, AllPlain;
    PlainPrefix(decls, i + 1, parent, depth, parent + 1, states);
    NextDecl(decls, i, parent, depth, parent + 1, states);
    PlainTail(LayoutAll(decls[..i], parent, depth, parent + 1),
      Layout(decls[i], Some(parent), depth, parent + 1 + SizeAll(decls[..i])), states);
  }

  lemma PlainTail(a: seq<Node>, b: seq<Node>, states: set<string>)
    requires AllPlain(a + b, states)
    ensures AllPlain(b, states)
  {
    hide ArePlain;
    forall j | 0 <= j < |b| ensures ArePlain(b[j].body.handlers, states) { assert (a + b)[|a| + j] == b[j]; }
  }

  lemma NoDecls(parent: nat, depth: nat, names: Names, drafts: seq<Draft>, states: set<string>)
    ensures Kids([], parent + 1) == [] && LayoutAll([], parent, depth, parent + 1) == []
    ensures AllPlain([], states) && IsGrown(names, states, drafts, drafts, [])
    ensures AddAll(names, OfDecls([], states)) == names
  {
  }

  lemma {:induction false} PlainPrefix(decls: seq<StateDecl>, i: nat, parent: nat, depth: nat, at: nat,
      states: set<string>)
    requires i <= |decls| && AllPlain(LayoutAll(decls, parent, depth, at), states)
    ensures AllPlain(LayoutAll(decls[..i], parent, depth, at), states)
  {
    hide Layout;
    if i == |decls| {
      assert decls[..i] == decls;
    } else {
      assert AllPlain(LayoutAll(Front(decls), parent, depth, at), states) by {
        var left := LayoutAll(Front(decls), parent, depth, at);
        forall j | 0 <= j < |left| ensures ArePlain(left[j].body.handlers, states) {
          assert LayoutAll(decls, parent, depth, at)[j] == left[j];
        }
      }
      PlainPrefix(Front(decls), i, parent, depth, at, states);
      assert Front(decls)[..i] == decls[..i];
    }
  }

  lemma NextTimer(hs: seq<DraftHandler>, h: DraftHandler)
    ensures TimersOf(Triggers(hs + [h]))
      == if h.trigger.Duration? then Insert(TimersOf(Triggers(hs)), h.trigger.timer) else TimersOf(Triggers(hs))
  {
    assert Triggers(hs + [h])[..|hs|] == Triggers(hs);
  }

  lemma NextHandler(names: Names, states: set<string>, hs: seq<DraftHandler>, h: DraftHandler,
      parsed: seq<ParsedHandler>, i: nat)
    requires i < |parsed| && AreHandlers(names, states, hs, parsed[..i]) && IsHandler(names, states, h, parsed[i], i)
    ensures AreHandlers(names, states, hs + [h], parsed[..i + 1])
    ensures OfHandlers(parsed[..i + 1], states) == OfHandlers(parsed[..i], states) + OfHandler(parsed[i], states)
  {
    assert parsed[..i + 1][..i] == parsed[..i];
  }

  /** The names states go by, in id order, and the chart's own name. */
  datatype Scope = Scope(states: seq<string>, chart: string)

  function LastNamed(names: seq<string>, x: string): (r: Option<nat>)
    ensures r.None? <==> x !in names
    ensures r.Some? ==> IsName(names, r.value, x) && x !in names[r.value + 1..]
  {
    if names == [] then None
    else if names[|names| - 1] == x then Some(|names| - 1)
    else LastNamed(names[..|names| - 1], x)
  }

  /** The state a name stands for. The chart's name always means the root; the root's reserved
      name means nothing. */
  function StateNamed(scope: Scope, x: string): Option<nat> {
    if x == scope.chart then Some(0)
    else if x == ROOT_NAME then None
    else LastNamed(scope.states, x)
  }

  function NamesBy<T>(items: seq<T>, name: T -> string): (r: seq<string>)
    ensures |r| == |items| && forall i :: 0 <= i < |r| ==> r[i] == name(items[i])
  {
    seq(|items|, i requires 0 <= i < |items| => name(items[i]))
  }

  function DraftName(draft: Draft): string {
    draft.name
  }

  predicate IsOpen(kind: DraftKind) {
    kind.ToState? && kind.slot.None?
  }

  function FillKind(scope: Scope, kind: DraftKind): DraftKind {
    if IsOpen(kind) then kind.(slot := StateNamed(scope, kind.target)) else kind
  }

  predicate IsFound(scope: Scope, kind: DraftKind) {
    IsOpen(kind) ==> StateNamed(scope, kind.target).Some?
  }

  predicate AreFound(scope: Scope, hs: seq<DraftHandler>) {
    forall i :: 0 <= i < |hs| ==> IsFound(scope, hs[i].kind)
  }

  predicate DefaultIsFound(scope: Scope, name: Option<string>) {
    name.Some? ==> StateNamed(scope, name.value).Some?
  }

  function FillHandlers(scope: Scope, hs: seq<DraftHandler>): (r: seq<DraftHandler>)
    ensures |r| == |hs| && forall i :: 0 <= i < |r| ==> r[i] == hs[i].(kind := FillKind(scope, hs[i].kind))
  {
    seq(|hs|, i requires 0 <= i < |hs| => hs[i].(kind := FillKind(scope, hs[i].kind)))
  }

  function FillDefault(scope: Scope, draft: Draft): Draft {
    if draft.defaultName.Some? then draft.(defaultTarget := StateNamed(scope, draft.defaultName.value)) else draft
  }

  predicate TargetsFound(scope: Scope, drafts: seq<Draft>) {
    forall s :: 0 <= s < |drafts| ==>
      AreFound(scope, drafts[s].handlers) && DefaultIsFound(scope, drafts[s].defaultName)
  }

  /** `after` is `before` with every target filled in. */
  predicate IsFilled(scope: Scope, before: seq<Draft>, after: seq<Draft>) {
    && |after| == |before|
    && forall s :: 0 <= s < |after| ==>
      after[s] == FillDefault(scope, before[s].(handlers := FillHandlers(scope, before[s].handlers)))
  }

  function Lookup(m: map<string, nat>, x: string): Option<nat> {
    if x in m then Some(m[x]) else None
  }

  ghost predicate IsNameMap(m: map<string, nat>, scope: Scope) {
    forall x :: Lookup(m, x) == StateNamed(scope, x)
  }

  predicate IsMapped(m: map<string, nat>, names: seq<string>, x: string) {
    Lookup(m, x) == if x == ROOT_NAME then None else LastNamed(names, x)
  }

  ghost predicate MapsNames(m: map<string, nat>, names: seq<string>) {
    forall x: string :: IsMapped(m, names, x)
  }

  lemma MapsNext(before: map<string, nat>, after: map<string, nat>, names: seq<string>, s: nat)
    requires s < |names| && MapsNames(before, names[..s])
    requires after == if names[s] == ROOT_NAME then before else before[names[s] := s]
    ensures MapsNames(after, names[..s + 1])
  {
    assert names[..s + 1][..s] == names[..s];
    var upTo := names[..s + 1];
    forall x: string ensures IsMapped(after, upTo, x) {
      assert IsMapped(before, names[..s], x);
    }
  }

  /** No two states but those with the root's reserved name share a name. */
  predicate UniqueNames(names: seq<string>) {
    forall i, j :: 0 <= i < j < |names| && names[i] == names[j] ==> names[i] == ROOT_NAME
  }
}
