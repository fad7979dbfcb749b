/** Which declarations validation accepts. */
module Acceptance {
  import opened Wrappers
  import opened Charts
  import opened Layouts
  import opened Drafts
  import opened Interning
  import opened Frontend
  import opened Validate
  import H = Handlers

  lemma {:induction false} KidsCount(decls: seq<StateDecl>, at: nat)
    ensures |Kids(decls, at)| == |decls|
    decreases decls
  {
    if decls != [] { KidsCount(Front(decls), at); }
  }

  /** Where defaults have no cycle and transitions come last, a chart is accepted exactly when every
      nested declaration has an entry or exit action, a handler, a nested state or a during. */
  lemma AcceptedIffNothingIsEmpty(c: Chart, source: Source, ns: string -> nat)
    requires Depicts(c, source, ns) && WellFormed(c) && !HasDefaultCycle(c)
    requires forall s: nat :: s < |c.states| ==> H.TransitionsLast(c.states[s].handlers)
    ensures Accepted(c) <==> forall j :: 0 < j < |ChartLayout(source.body)| ==>
      var body := ChartLayout(source.body)[j].body;
      || body.entries != [] || body.exits != [] || body.handlers != [] || body.children != [] || body.durings > 0
  {
    hide NamesOf, StateNames, ScopeOf, TimersOf, Size, HasDefaultCycle;
    var names, states, scope, nodes := NamesOf(source), StateNames(source), ScopeOf(source), ChartLayout(source.body);
    AcceptedExactly(c);
    forall s: nat | s < |c.states|
      ensures StateMeans(names, states, scope, c.states[s], nodes[s])
      ensures |c.states[s].children| == |nodes[s].body.children|
    {
      SubtreeInside(StateDecl(ROOT_NAME, source.body), None, 0, 0, s);
      assert nodes[s] == nodes[s..s + Size(nodes[s].body)][0];
      KidsCount(nodes[s].body.children, s + 1);
    }
    forall s: nat | 0 < s < |c.states|
      ensures (c.states[s].entries != [] || c.states[s].exits != [] || c.states[s].handlers != []
          || c.states[s].children != [] || c.states[s].durings > 0) <==>
        var body := nodes[s].body;
        (body.entries != [] || body.exits != [] || body.handlers != [] || body.children != [] || body.durings > 0)
    {
      assert StateMeans(names, states, scope, c.states[s], nodes[s]);
    }
    OrderedExactly(c);
  }

  lemma OrderedExactly(c: Chart)
    requires forall s: nat :: s < |c.states| ==> H.TransitionsLast(c.states[s].handlers)
    ensures forall s: nat, i, j :: s < |c.states| && 0 <= i < j < |c.states[s].handlers| ==>
      c.states[s].handlers[i].trigger == c.states[s].handlers[j].trigger ==> c.states[s].handlers[i].kind.Action?
  {
    forall s: nat, i, j | s < |c.states| && 0 <= i < j < |c.states[s].handlers|
      ensures c.states[s].handlers[i].trigger == c.states[s].handlers[j].trigger ==>
        c.states[s].handlers[i].kind.Action?
    {
      assert H.InOrder(c.states[s].handlers, i, j);
    }
  }

  /** A root with one nested state. */
  function OneNested(body: Body): Source {
    Source("Chart", Body([], [], [], 0, [StateDecl("S", body)], None), None)
  }

  const EMPTY_BODY := Body([], [], [], 0, [], None)

  /** The smallest charts on either side: a nested state that declares nothing is refused; with one
      entry action, one exit action or one during it is accepted. */
  lemma EmptyStateIsRefused(c: Chart, ns: string -> nat, body: Body)
    requires body.handlers == [] && body.children == [] && body.defaultTarget == None
    requires Depicts(c, OneNested(body), ns)
    ensures Accepted(c) <==> body.entries != [] || body.exits != [] || body.durings > 0
    ensures body == EMPTY_BODY ==> Lowers(OneNested(body)) && !Accepted(c)
  {
    var source := OneNested(body);
    OneNestedLayout(body);
    hide Layout, NamesOf;
    var names, states, scope, nodes := NamesOf(source), StateNames(source), ScopeOf(source), ChartLayout(source.body);
    assert StateMeans(names, states, scope, c.states[0], nodes[0]);
    assert StateMeans(names, states, scope, c.states[1], nodes[1]);
    assert IsRanking(c, [0, 0]);
    RankingExcludesCycles(c);
    DepictedIsWellFormed(c, source, ns);
    AcceptedIffNothingIsEmpty(c, source, ns);
  }

  lemma OneNestedLayout(body: Body)
    requires body.children == []
    ensures ChartLayout(OneNested(body).body)
      == [Node(ROOT_NAME, None, 0, OneNested(body).body, [1]), Node("S", Some(0), 1, body, [])]
  {
    var inner := StateDecl("S", body);
    assert Front([inner]) == [];
    assert LayoutAll([inner], 0, 1, 1) == Layout(inner, Some(0), 1, 1) == [Node("S", Some(0), 1, body, [])];
    assert Kids([inner], 1) == [1];
  }
}
