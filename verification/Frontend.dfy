/** From a parsed chart to the lowered, resolved one: what it then depicts. */
module Frontend {
  import opened Wrappers
  import opened Charts
  import opened Layouts
  import opened Interning
  import opened Drafts
  import opened Lowering
  import opened Validate

  function NodeName(node: Node): string {
    node.name
  }

  function ScopeOf(source: Source): Scope {
    Scope(NamesBy(ChartLayout(source.body), NodeName), source.name)
  }

  /** A handler's target is a state when the name is declared; it must then be a known one. */
  predicate KnowsTargets(scope: Scope, states: set<string>, hs: seq<ParsedHandler>) {
    forall i :: 0 <= i < |hs| && hs[i].target in states ==> StateNamed(scope, hs[i].target).Some?
  }

  predicate KnowsNames(scope: Scope, states: set<string>, body: Body) {
    KnowsTargets(scope, states, body.handlers) && DefaultIsFound(scope, body.defaultTarget)
  }

  predicate AllKnown(scope: Scope, states: set<string>, nodes: seq<Node>) {
    forall s :: 0 <= s < |nodes| ==> KnowsNames(scope, states, nodes[s].body)
  }

  /** The parsed charts that lower and resolve without an error. */
  predicate Lowers(source: Source) {
    && AllPlain(ChartLayout(source.body), StateNames(source))
    && AllKnown(ScopeOf(source), StateNames(source), ChartLayout(source.body))
  }

  /** A declaration is refused for two reasons only: a target or default that names no state, and an
      `every` timer that leads to a state. */
  lemma LowersExactly(source: Source)
    ensures Lowers(source) <==> forall s :: 0 <= s < |ChartLayout(source.body)| ==>
      var body := ChartLayout(source.body)[s].body;
      && (body.defaultTarget.Some? ==> StateNamed(ScopeOf(source), body.defaultTarget.value).Some?)
      && (forall i :: 0 <= i < |body.handlers| && body.handlers[i].target in StateNames(source) ==>
            && StateNamed(ScopeOf(source), body.handlers[i].target).Some?
            && (body.handlers[i].trigger.OnDuration? ==> !body.handlers[i].trigger.key.repeats))
  {
    hide ScopeOf, StateNames, StateNamed, ChartLayout;
    var scope, states, nodes := ScopeOf(source), StateNames(source), ChartLayout(source.body);
    forall s | 0 <= s < |nodes|
      ensures ArePlain(nodes[s].body.handlers, states) && KnowsNames(scope, states, nodes[s].body) <==>
        var body := nodes[s].body;
        && (body.defaultTarget.Some? ==> StateNamed(scope, body.defaultTarget.value).Some?)
        && (forall i :: 0 <= i < |body.handlers| && body.handlers[i].target in states ==>
              && StateNamed(scope, body.handlers[i].target).Some?
              && (body.handlers[i].trigger.OnDuration? ==> !body.handlers[i].trigger.key.repeats))
    {
      PlainAndKnown(scope, states, nodes[s].body.handlers);
    }
  }

  lemma PlainAndKnown(scope: Scope, states: set<string>, hs: seq<ParsedHandler>)
    ensures ArePlain(hs, states) && KnowsTargets(scope, states, hs) <==>
      forall i :: 0 <= i < |hs| && hs[i].target in states ==>
        && StateNamed(scope, hs[i].target).Some?
        && (hs[i].trigger.OnDuration? ==> !hs[i].trigger.key.repeats)
  {
    hide StateNamed;
    if ArePlain(hs, states) {
      forall i | 0 <= i < |hs| && hs[i].target in states && hs[i].trigger.OnDuration?
        ensures !hs[i].trigger.key.repeats
      {
        assert IsPlain(hs[i], states);
      }
    }
  }

  predicate HandlerMeans(names: Names, states: set<string>, scope: Scope, h: Handler, parsed: ParsedHandler, i: nat) {
    && IsTrigger(names, h.trigger, parsed.trigger)
    && h.declIndex == i
    && if parsed.target in states then h.kind.Transition? && StateNamed(scope, parsed.target) == Some(h.kind.target)
       else h.kind.Action? && IsName(names.actions, h.kind.action, parsed.target)
  }

  predicate HandlersMean(names: Names, states: set<string>, scope: Scope, hs: seq<Handler>,
      parsed: seq<ParsedHandler>) {
    |hs| == |parsed| && forall i :: 0 <= i < |hs| ==> HandlerMeans(names, states, scope, hs[i], parsed[i], i)
  }

  function TriggersOf(hs: seq<Handler>): (r: seq<Trigger>)
    ensures |r| == |hs| && forall i :: 0 <= i < |r| ==> r[i] == hs[i].trigger
  {
    seq(|hs|, i requires 0 <= i < |hs| => hs[i].trigger)
  }

  function Defaults(scope: Scope, name: Option<string>): Option<nat> {
    if name.Some? then StateNamed(scope, name.value) else None
  }

  /** A numbered state says exactly what its declaration says. */
  predicate StateMeans(names: Names, states: set<string>, scope: Scope, state: State, node: Node) {
    && PlacedAs(state, node)
    && state.durings == node.body.durings
    && AreNames(names.actions, state.entries, node.body.entries)
    && AreNames(names.actions, state.exits, node.body.exits)
    && HandlersMean(names, states, scope, state.handlers, node.body.handlers)
    && state.ownedTimers == TimersOf(TriggersOf(state.handlers))
    && state.defaultTarget == Defaults(scope, node.body.defaultTarget)
    && DefaultIsFound(scope, node.body.defaultTarget)
  }

  predicate DurationMeans(d: DurationTrigger, key: DurationKey, ns: string -> nat) {
    d == DurationTrigger(ns(key.text), key.repeats)
  }

  predicate StatesMean(c: Chart, source: Source) {
    && |c.states| == Size(source.body)
    && forall s :: 0 <= s < |c.states| ==>
         StateMeans(NamesOf(source), StateNames(source), ScopeOf(source), c.states[s], ChartLayout(source.body)[s])
  }

  /** The chart is the parsed one with states, actions, events and durations numbered. */
  predicate Depicts(c: Chart, source: Source, ns: string -> nat) {
    var names := NamesOf(source);
    && StatesMean(c, source)
    && c.nEvents == |names.events|
    && |c.durations| == |names.durations|
    && (forall t :: 0 <= t < |c.durations| ==> DurationMeans(c.durations[t], names.durations[t], ns))
    && (c.terminate.Some? <==> source.terminate.Some?)
    && (c.terminate.Some? ==> IsName(names.events, c.terminate.value, source.terminate.value))
  }

  /** What a name may mean: the chart's own the root, any other a state of that name. */
  predicate IsNamed(source: Source, t: nat, x: string) {
    if x == source.name then t == 0
    else t < |ChartLayout(source.body)| && ChartLayout(source.body)[t].name == x
  }

  /** A target is taken for a state exactly when it is the chart's name or that of a nested state. */
  lemma StateNamesExactly(source: Source, x: string)
    ensures x in StateNames(source) <==>
      x == source.name || exists j :: 0 < j < |ChartLayout(source.body)| && ChartLayout(source.body)[j].name == x
  {
    hide Declared;
    var nodes, below := ChartLayout(source.body), LayoutAll(source.body.children, 0, 1, 1);
    LayoutRoot(StateDecl(ROOT_NAME, source.body), None, 0, 0);
    DeclaredAreLaidOut(source.body.children, 0, 1, 1, x);
    if NamedIn(below, x) {
      var j :| 0 <= j < |below| && below[j].name == x;
      assert nodes[j + 1].name == x;
    }
    if j :| 0 < j < |nodes| && nodes[j].name == x { assert below[j - 1].name == x; }
  }

  /** Everything a body declares is there under its number, and nothing else: each action by its
      name, each trigger by its event or duration, each target and default by the state it names. */
  lemma DepictedExactly(c: Chart, source: Source, ns: string -> nat, s: nat)
    requires Depicts(c, source, ns) && s < |c.states|
    ensures var st, body, names := c.states[s], ChartLayout(source.body)[s].body, NamesOf(source);
      && |st.entries| == |body.entries| && |st.exits| == |body.exits|
      && |st.handlers| == |body.handlers| && st.durings == body.durings
      && (forall i :: 0 <= i < |st.entries| ==>
            st.entries[i] < |names.actions| && names.actions[st.entries[i]] == body.entries[i])
      && (forall i :: 0 <= i < |st.exits| ==>
            st.exits[i] < |names.actions| && names.actions[st.exits[i]] == body.exits[i])
      && (forall i :: 0 <= i < |st.handlers| ==> SaysWhatIsDeclared(c, source, ns, st.handlers[i], body.handlers[i]))
      && (st.defaultTarget.Some? <==> body.defaultTarget.Some?)
      && (st.defaultTarget.Some? ==> IsNamed(source, st.defaultTarget.value, body.defaultTarget.value))
  {
    hide NamesOf, StateNames, TimersOf, Size;
    var names, states, scope := NamesOf(source), StateNames(source), ScopeOf(source);
    var node := ChartLayout(source.body)[s];
    assert StateMeans(names, states, scope, c.states[s], node);
    forall i | 0 <= i < |c.states[s].handlers|
      ensures SaysWhatIsDeclared(c, source, ns, c.states[s].handlers[i], node.body.handlers[i])
    {
      var h, parsed := c.states[s].handlers[i], node.body.handlers[i];
      assert HandlerMeans(names, states, scope, h, parsed, i);
      if h.trigger.Duration? {
        assert DurationMeans(c.durations[h.trigger.timer], names.durations[h.trigger.timer], ns);
      }
    }
  }

  predicate SaysWhatIsDeclared(c: Chart, source: Source, ns: string -> nat, h: Handler, parsed: ParsedHandler) {
    var names := NamesOf(source);
    && (match parsed.trigger
        case OnEvent(variant) =>
          h.trigger.Event? && h.trigger.event < |names.events| && names.events[h.trigger.event] == variant
        case OnDuration(key) =>
          && h.trigger.Duration? && h.trigger.timer < |c.durations|
          && c.durations[h.trigger.timer] == DurationTrigger(ns(key.text), key.repeats))
    && (if parsed.target in StateNames(source) then
          h.kind.Transition? && IsNamed(source, h.kind.target, parsed.target)
        else
          h.kind.Action? && h.kind.action < |names.actions| && names.actions[h.kind.action] == parsed.target)
  }

  /** A known name stands for a state of the chart. */
  lemma NamedStateExists(source: Source, x: string)
    requires StateNamed(ScopeOf(source), x).Some?
    ensures StateNamed(ScopeOf(source), x).value < Size(source.body)
  {
  }

  lemma DepictedHasLayout(c: Chart, source: Source)
    requires StatesMean(c, source)
    ensures HasLayout(c, source.body)
  {
    forall s | 0 <= s < |c.states| ensures PlacedAs(c.states[s], ChartLayout(source.body)[s]) {
      assert StateMeans(NamesOf(source), StateNames(source), ScopeOf(source), c.states[s], ChartLayout(source.body)[s]);
    }
  }

  lemma DepictedStateIsOk(c: Chart, source: Source, ns: string -> nat, s: nat)
    requires Depicts(c, source, ns) && s < |c.states|
    ensures StateOk(c, s)
  {
    hide NamesOf, StateNames, ScopeOf, TimersOf, Size;
    var names, states, scope := NamesOf(source), StateNames(source), ScopeOf(source);
    var state, node := c.states[s], ChartLayout(source.body)[s];
    assert StateMeans(names, states, scope, state, node);
    forall i | 0 <= i < |state.handlers|
      ensures HandlerMeans(names, states, scope, state.handlers[i], node.body.handlers[i], i)
      ensures state.handlers[i].kind.Transition? ==> state.handlers[i].kind.target < |c.states|
      ensures state.handlers[i].trigger.Duration? ==> state.handlers[i].trigger.timer in state.ownedTimers
    {
      var h := state.handlers[i];
      if h.kind.Transition? { NamedStateExists(source, node.body.handlers[i].target); }
      if h.trigger.Duration? {
        TimersOfIsExact(TriggersOf(state.handlers), h.trigger.timer);
        assert TriggersOf(state.handlers)[i] == h.trigger;
      }
    }
    assert OwnedTimersOk(c, state) by {
      forall t | t in state.ownedTimers ensures t < |c.durations| && HasTrigger(state, Duration(t)) {
        TimersOfIsExact(TriggersOf(state.handlers), t);
        var i :| 0 <= i < |state.handlers| && TriggersOf(state.handlers)[i] == Duration(t);
        assert HandlerMeans(names, states, scope, state.handlers[i], node.body.handlers[i], i);
      }
      TimersOfIsExact(TriggersOf(state.handlers), 0);
    }
    if node.body.defaultTarget.Some? { NamedStateExists(source, node.body.defaultTarget.value); }
  }

  /** Lowering yields a chart that validation and code generation can take. */
  lemma DepictedIsWellFormed(c: Chart, source: Source, ns: string -> nat)
    requires Depicts(c, source, ns)
    ensures WellFormed(c)
  {
    DepictedHasLayout(c, source);
    LayoutIsTree(c, source.body);
    forall s: nat | s < |c.states| ensures StateOk(c, s) { DepictedStateIsOk(c, source, ns, s); }
  }

  /** The id a trigger is generated with. */
  function Cast(t: Trigger): Trigger {
    match t
    case Event(e) => Event(AsU16(e))
    case Duration(d) => Duration(AsU16(d))
  }

  /** Of a table without repeats, the 16-bit ids keep all entries apart exactly when there are at
      most 65,536 of them; from then on the ids start over. */
  lemma CastsKeepApartIffFew<T>(table: seq<T>)
    requires NoRepeats(table)
    ensures (forall i: nat, j: nat :: i < |table| && j < |table| && AsU16(i) == AsU16(j) ==> table[i] == table[j])
      <==> |table| <= 0x1_0000
  {
    if |table| > 0x1_0000 {
      assert AsU16(0) == AsU16(0x1_0000) && table[0] != table[0x1_0000];
    }
  }

  /** Ids keep declarations apart: two handlers anywhere in the chart share a trigger exactly when
      they were declared for the same event or the same duration, as long as the 16-bit ids of
      events and durations do not start over. */
  lemma TriggersAgree(c: Chart, source: Source, ns: string -> nat, s: nat, i: nat, t: nat, j: nat)
    requires Depicts(c, source, ns) && s < |c.states| && t < |c.states|
    requires i < |c.states[s].handlers| && j < |c.states[t].handlers|
    requires |NamesOf(source).events| <= 0x1_0000 && |NamesOf(source).durations| <= 0x1_0000
    ensures var nodes := ChartLayout(source.body);
      && i < |nodes[s].body.handlers| && j < |nodes[t].body.handlers|
      && (Cast(c.states[s].handlers[i].trigger) == Cast(c.states[t].handlers[j].trigger)
          <==> nodes[s].body.handlers[i].trigger == nodes[t].body.handlers[j].trigger)
  {
    hide NamesOf, StateNames, ScopeOf, TimersOf, Size, StateNamed;
    var names, states, scope, nodes := NamesOf(source), StateNames(source), ScopeOf(source), ChartLayout(source.body);
    assert StateMeans(names, states, scope, c.states[s], nodes[s]);
    assert StateMeans(names, states, scope, c.states[t], nodes[t]);
    assert HandlerMeans(names, states, scope, c.states[s].handlers[i], nodes[s].body.handlers[i], i);
    assert HandlerMeans(names, states, scope, c.states[t].handlers[j], nodes[t].body.handlers[j], j);
    NamesAreInjective(source);
    CastsKeepApartIffFew(names.events);
    CastsKeepApartIffFew(names.durations);
  }

  lemma NamesAreInjective(source: Source)
    ensures Injective(NamesOf(source))
  {
    var mentions := OfBody(source.body, StateNames(source))
      + if source.terminate.Some? then [OfEvent(source.terminate.value)] else [];
    TablesHoldTheMentions(mentions, OfEvent(""));
  }

  /** A handler target taken for a state always resolves, unless the chart declares a state under
      the root's reserved name: the unknown-state error is otherwise confined to defaults. */
  lemma TargetsResolve(source: Source, x: string)
    requires x in StateNames(source)
    ensures StateNamed(ScopeOf(source), x).None? <==> x == "__Root" && source.name != "__Root"
  {
    if x != source.name && x != ROOT_NAME {
      var below := LayoutAll(source.body.children, 0, 1, 1);
      DeclaredAreLaidOut(source.body.children, 0, 1, 1, x);
      var j :| 0 <= j < |below| && below[j].name == x;
      assert ScopeOf(source).states[j + 1] == x;
    }
  }

  /** Where names are unique, each declared name but the chart's own stands for its one state. */
  lemma UniqueNamesResolve(source: Source, s: nat)
    requires UniqueNames(ScopeOf(source).states) && s < |ScopeOf(source).states|
    ensures var x := ScopeOf(source).states[s];
      StateNamed(ScopeOf(source), x) == if x == source.name then Some(0) else if x == ROOT_NAME then None else Some(s)
  {
  }

  /** A nested state with the chart's own name is out of reach: no handler and no default of the
      chart leads to it, since its name means the root. */
  lemma ShadowedIsUnreachable(c: Chart, source: Source, ns: string -> nat, s: nat, t: nat)
    requires Depicts(c, source, ns) && 0 < s < |c.states| && t < |c.states|
    requires ScopeOf(source).states[s] == source.name
    ensures c.states[t].defaultTarget != Some(s)
    ensures forall i :: 0 <= i < |c.states[t].handlers| ==> c.states[t].handlers[i].kind != HandlerKind.Transition(s)
  {
    hide NamesOf, StateNames, TimersOf, Size, AreNames;
    var names, states, scope, node := NamesOf(source), StateNames(source), ScopeOf(source), ChartLayout(source.body)[t];
    assert StateMeans(names, states, scope, c.states[t], node);
    forall i | 0 <= i < |c.states[t].handlers| ensures c.states[t].handlers[i].kind != HandlerKind.Transition(s) {
      assert HandlerMeans(names, states, scope, c.states[t].handlers[i], node.body.handlers[i], i);
    }
  }

  /** The check on names lets such a state through: a chart that is accepted, whose nested state
      is named like the chart, and whose transition to that name goes to the root. */
  lemma ChartNameShadowsState()
    ensures var source := Shadowing();
      Lowers(source) && UniqueNames(ScopeOf(source).states) && ScopeOf(source).states[1] == source.name
    ensures forall c, ns :: Depicts(c, Shadowing(), ns) ==>
      && Accepted(c) && |c.states| == 2 && |c.states[1].handlers| == 1
      && c.states[1].handlers[0].kind == HandlerKind.Transition(0)
  {
    ShadowingLayout();
    hide Layout;
    var source := Shadowing();
    var nodes := ChartLayout(source.body);
    assert nodes[0].body == source.body && nodes[1].body == Inner().body;
    forall c, ns | Depicts(c, source, ns)
      ensures Accepted(c) && |c.states| == 2 && |c.states[1].handlers| == 1
      ensures c.states[1].handlers[0].kind == HandlerKind.Transition(0)
    {
      ShadowingAccepted(c, ns);
    }
  }

  lemma ShadowingAccepted(c: Chart, ns: string -> nat)
    requires Depicts(c, Shadowing(), ns)
    ensures Accepted(c) && |c.states| == 2 && |c.states[1].handlers| == 1
    ensures c.states[1].handlers[0].kind == HandlerKind.Transition(0)
  {
    ShadowingLayout();
    hide Layout, NamesOf;
    var source := Shadowing();
    var names, states, scope, nodes := NamesOf(source), StateNames(source), ScopeOf(source), ChartLayout(source.body);
    assert StateMeans(names, states, scope, c.states[0], nodes[0]);
    assert StateMeans(names, states, scope, c.states[1], nodes[1]);
    assert HandlerMeans(names, states, scope, c.states[1].handlers[0], nodes[1].body.handlers[0], 0);
    assert IsRanking(c, [0, 0]);
    RankingExcludesCycles(c);
  }

  function Inner(): StateDecl {
    StateDecl("M", Body([], [], [ParsedHandler(OnEvent("e"), "M")], 0, [], None))
  }

  /** A chart whose only nested state has the chart's name, and a handler that names it. */
  function Shadowing(): Source {
    Source("M", Body([], [], [], 0, [Inner()], None), None)
  }

  lemma ShadowingLayout()
    ensures ChartLayout(Shadowing().body)
      == [Node(ROOT_NAME, None, 0, Shadowing().body, [1]), Node("M", Some(0), 1, Inner().body, [])]
  {
    var inner := Inner();
    assert Front([inner]) == [];
    assert LayoutAll([inner], 0, 1, 1) == Layout(inner, Some(0), 1, 1) == [Node("M", Some(0), 1, inner.body, [])];
    assert Kids([inner], 1) == [1];
  }

  method CollectStateNames(decls: seq<StateDecl>, known: set<string>) returns (names: set<string>)
    ensures names == known + Declared(decls)
    decreases decls
  {
    names := known;
    var i := 0;
    while i < |decls|
      invariant i <= |decls|
      invariant names == known + Declared(decls[..i])
    {
      assert Front(decls[..i + 1]) == decls[..i];
      names := CollectStateNames(decls[i].body.children, names + {decls[i].name});
      i := i + 1;
    }
    assert decls[..i] == decls;
  }

  /** Builds the states; fails exactly when an `every` timer leads to a state. */
  method BuildIr(source: Source) returns (r: Option<Ir>, terminate: Option<nat>)
    ensures r.Some? <==> AllPlain(ChartLayout(source.body), StateNames(source))
    ensures r.Some? ==> fresh(r.value) && r.value.name == source.name && r.value.names == NamesOf(source)
    ensures r.Some? ==> AreLowered(NamesOf(source), StateNames(source), r.value.states, ChartLayout(source.body))
    ensures r.Some? ==> (terminate.Some? <==> source.terminate.Some?)
    ensures r.Some? && terminate.Some? ==> IsName(NamesOf(source).events, terminate.value, source.terminate.value)
  {
    hide AllPlain, Layout, IsLowered, OfBody;
    var names := CollectStateNames(source.body.children, {});
    names := names + {source.name};
    assert names == StateNames(source);
    var ir := new Ir(source.name, names);
    var root := ir.AllocState(ROOT_NAME, None, 0);
    var ok := ir.LowerBody(root, source.body);
    terminate := None;
    if !ok { return None, None; }
    ghost var before, mentions := ir.names, OfBody(source.body, names);
    assert ir.states[0..] == ir.states;
    if source.terminate.Some? {
      var id := ir.InternEvent(source.terminate.value);
      terminate := Some(id);
      AddLast(NO_NAMES, mentions, OfEvent(source.terminate.value));
    } else {
      assert mentions + [] == mentions;
    }
    LoweredStays(before, ir.names, names, ir.states, ChartLayout(source.body));
    r := Some(ir);
  }

  predicate IsClosed(kind: DraftKind) {
    !IsOpen(kind)
  }

  function Kind(kind: DraftKind): HandlerKind
    requires IsClosed(kind)
  {
    match kind
    case ToState(_, slot) => Transition(slot.value)
    case Call(action) => Action(action)
  }

  predicate AreClosed(hs: seq<DraftHandler>) {
    forall i :: 0 <= i < |hs| ==> IsClosed(hs[i].kind)
  }

  function Handlers(hs: seq<DraftHandler>): (r: seq<Handler>)
    requires AreClosed(hs)
    ensures |r| == |hs|
    ensures forall i :: 0 <= i < |r| ==> r[i] == Handler(hs[i].trigger, Kind(hs[i].kind), hs[i].declIndex)
  {
    seq(|hs|, i requires 0 <= i < |hs| => Handler(hs[i].trigger, Kind(hs[i].kind), hs[i].declIndex))
  }

  function Finish(draft: Draft): State
    requires AreClosed(draft.handlers)
  {
    State(draft.parent, draft.depth, draft.defaultTarget, draft.entries, draft.exits, Handlers(draft.handlers),
      draft.children, draft.ownedTimers, draft.durings)
  }

  lemma FilledMeans(names: Names, states: set<string>, scope: Scope, was: Draft, draft: Draft, node: Node)
    requires IsLowered(names, states, was, node) && KnowsNames(scope, states, node.body)
    requires draft == FillDefault(scope, was.(handlers := FillHandlers(scope, was.handlers)))
    ensures AreClosed(draft.handlers) && StateMeans(names, states, scope, Finish(draft), node)
  {
    hide TimersOf, StateNamed;
    forall i | 0 <= i < |draft.handlers|
      ensures IsClosed(draft.handlers[i].kind)
      ensures HandlerMeans(names, states, scope,
        Handler(draft.handlers[i].trigger, Kind(draft.handlers[i].kind), draft.handlers[i].declIndex),
        node.body.handlers[i], i)
    {
      assert IsHandler(names, states, was.handlers[i], node.body.handlers[i], i);
    }
    assert TriggersOf(Handlers(draft.handlers)) == Triggers(was.handlers);
  }

  /** Resolution succeeds exactly when the names of the declarations are known. */
  lemma FoundIffKnown(names: Names, states: set<string>, scope: Scope, drafts: seq<Draft>, nodes: seq<Node>)
    requires AreLowered(names, states, drafts, nodes)
    ensures TargetsFound(scope, drafts) <==> AllKnown(scope, states, nodes)
  {
    hide StateNamed;
    forall s | 0 <= s < |nodes|
      ensures AreFound(scope, drafts[s].handlers) && DefaultIsFound(scope, drafts[s].defaultName)
        <==> KnowsNames(scope, states, nodes[s].body)
    {
      assert IsLowered(names, states, drafts[s], nodes[s]);
      HandlersFoundIffKnown(names, states, scope, drafts[s].handlers, nodes[s].body.handlers);
    }
  }

  lemma HandlersFoundIffKnown(names: Names, states: set<string>, scope: Scope, hs: seq<DraftHandler>,
      parsed: seq<ParsedHandler>)
    requires AreHandlers(names, states, hs, parsed)
    ensures AreFound(scope, hs) <==> KnowsTargets(scope, states, parsed)
  {
    hide StateNamed;
    forall i | 0 <= i < |hs|
      ensures IsFound(scope, hs[i].kind) <==> (parsed[i].target in states ==> StateNamed(scope, parsed[i].target).Some?)
    {
      assert IsHandler(names, states, hs[i], parsed[i], i);
    }
  }

  method FinishStates(ir: Ir, source: Source, ghost was: seq<Draft>) returns (states: seq<State>)
    requires AreLowered(NamesOf(source), StateNames(source), was, ChartLayout(source.body))
    requires AllKnown(ScopeOf(source), StateNames(source), ChartLayout(source.body))
    requires IsFilled(ScopeOf(source), was, ir.states)
    ensures |states| == Size(source.body)
    ensures forall s :: 0 <= s < |states| ==>
      StateMeans(NamesOf(source), StateNames(source), ScopeOf(source), states[s], ChartLayout(source.body)[s])
  {
    hide NamesOf, StateNames, ScopeOf, StateMeans, IsLowered, KnowsNames, Finish;
    states := [];
    var s := 0;
    while s < |ir.states|
      invariant s == |states| <= |ir.states|
      invariant forall k :: 0 <= k < s ==>
        StateMeans(NamesOf(source), StateNames(source), ScopeOf(source), states[k], ChartLayout(source.body)[k])
    {
      FilledMeans(NamesOf(source), StateNames(source), ScopeOf(source),
        was[s], ir.states[s], ChartLayout(source.body)[s]);
      states := states + [Finish(ir.states[s])];
      s := s + 1;
    }
  }

  /** Lowers and resolves; fails exactly on an `every` timer that leads to a state or a name that
      stands for none, and otherwise loses nothing of the declaration. */
  method LowerChart(source: Source, ns: string -> nat, hash: nat) returns (r: Option<Chart>, unique: bool)
    ensures r.Some? <==> Lowers(source)
    ensures r.Some? ==> Depicts(r.value, source, ns) && r.value.hash == hash
    ensures r.Some? ==> (unique <==> UniqueNames(ScopeOf(source).states))
  {
    hide NamesOf, StateNames, ChartLayout, StateMeans, IsLowered, KnowsNames, StateNamed, UniqueNames;
    var ir, terminate := BuildIr(source);
    if ir.None? { return None, false; }
    ghost var was := ir.value.states;
    assert NamesBy(was, DraftName) == ScopeOf(source).states && was[0].parent == None by {
      LoweredNames(NamesOf(source), StateNames(source), was, source);
    }
    FoundIffKnown(NamesOf(source), StateNames(source), ScopeOf(source), was, ChartLayout(source.body));
    var ok := ir.value.ResolveTransitions();
    if !ok { return None, false; }
    assert NamesBy(ir.value.states, DraftName) == NamesBy(was, DraftName);
    unique := ir.value.HasUniqueNames();
    var states := FinishStates(ir.value, source, was);
    var keys := ir.value.names.durations;
    var durations := seq(|keys|, t requires 0 <= t < |keys| => DurationTrigger(ns(keys[t].text), keys[t].repeats));
    r := Some(Chart(hash, states, |ir.value.names.events|, durations, terminate));
  }

  lemma LoweredNames(names: Names, states: set<string>, drafts: seq<Draft>, source: Source)
    requires AreLowered(names, states, drafts, ChartLayout(source.body))
    ensures drafts != [] && drafts[0].parent == None
    ensures NamesBy(drafts, DraftName) == ScopeOf(source).states
  {
    forall s | 0 <= s < |drafts| ensures drafts[s].name == ChartLayout(source.body)[s].name {
      assert IsLowered(names, states, drafts[s], ChartLayout(source.body)[s]);
    }
    assert IsLowered(names, states, drafts[0], ChartLayout(source.body)[0]);
  }
}
