/** A parsed chart and the preorder in which lowering numbers its states. */
module Layouts {
  import opened Wrappers
  import opened Charts
  import opened Tree

  /** The tokens of a duration expression; what it evaluates to is not known at build time. */
  datatype DurationKey = DurationKey(text: string, repeats: bool)

  datatype ParsedTrigger = OnEvent(variant: string) | OnDuration(key: DurationKey)

  /** `target` names a state or a handler function: lowering tells which. */
  datatype ParsedHandler = ParsedHandler(trigger: ParsedTrigger, target: string)

  datatype Body = Body(
    entries: seq<string>, exits: seq<string>, handlers: seq<ParsedHandler>,
    durings: nat, children: seq<StateDecl>, defaultTarget: Option<string>)

  datatype StateDecl = StateDecl(name: string, body: Body)

  datatype Source = Source(name: string, body: Body, terminate: Option<string>)

  /** One state where lowering puts it. */
  datatype Node = Node(name: string, parent: Option<nat>, depth: nat, body: Body, kids: seq<nat>)

  function Front(decls: seq<StateDecl>): seq<StateDecl>
    requires decls != []
  {
    decls[..|decls| - 1]
  }

  function Final(decls: seq<StateDecl>): StateDecl
    requires decls != []
  {
    decls[|decls| - 1]
  }

  /** Number of states declared by a body, its own included. */
  function Size(body: Body): (n: nat)
    ensures n > 0
  {
    1 + SizeAll(body.children)
  }

  function SizeAll(decls: seq<StateDecl>): nat {
    if decls == [] then 0 else SizeAll(Front(decls)) + Size(Final(decls).body)
  }

  /** The ids of the declared siblings when the first of them gets id `at`. */
  function Kids(decls: seq<StateDecl>, at: nat): seq<nat> {
    if decls == [] then [] else Kids(Front(decls), at) + [at + SizeAll(Front(decls))]
  }

  /** The states of a subtree in preorder; its root gets id `at`. */
  function Layout(decl: StateDecl, parent: Option<nat>, depth: nat, at: nat): (r: seq<Node>)
    ensures |r| == Size(decl.body)
    ensures r[0] == Node(decl.name, parent, depth, decl.body, Kids(decl.body.children, at + 1))
  {
    [Node(decl.name, parent, depth, decl.body, Kids(decl.body.children, at + 1))]
    + LayoutAll(decl.body.children, at, depth + 1, at + 1)
  }

  function LayoutAll(decls: seq<StateDecl>, parent: nat, depth: nat, at: nat): (r: seq<Node>)
    ensures |r| == SizeAll(decls)
  {
    if decls == [] then []
    else LayoutAll(Front(decls), parent, depth, at)
         + Layout(Final(decls), Some(parent), depth, at + SizeAll(Front(decls)))
  }

  const ROOT_NAME: string := "__Root"

  /** The whole chart: the root body is lowered under a reserved name. */
  function ChartLayout(body: Body): seq<Node> {
    Layout(StateDecl(ROOT_NAME, body), None, 0, 0)
  }

  /** The subtree of the state at index `j` of a layout, laid out on its own. */
  function SubLayout(nodes: seq<Node>, at: nat, j: nat): seq<Node>
    requires j < |nodes|
  {
    Layout(StateDecl(nodes[j].name, nodes[j].body), nodes[j].parent, nodes[j].depth, at + j)
  }

  /** The state at `j` is followed immediately by the rest of its subtree. */
  ghost predicate HoldsSubtree(nodes: seq<Node>, at: nat, j: nat)
    requires j < |nodes|
  {
    && j + Size(nodes[j].body) <= |nodes|
    && nodes[j..j + Size(nodes[j].body)] == SubLayout(nodes, at, j)
  }

  lemma {:induction false} SubtreeInside(decl: StateDecl, parent: Option<nat>, depth: nat, at: nat, j: nat)
    requires j < Size(decl.body)
    ensures HoldsSubtree(Layout(decl, parent, depth, at), at, j)
    decreases decl
  {
    var nodes := Layout(decl, parent, depth, at);
    if j == 0 {
      assert nodes[0..|nodes|] == nodes;
    } else {
      var rest := LayoutAll(decl.body.children, at, depth + 1, at + 1);
      SubtreeInsideAll(decl.body.children, at, depth + 1, at + 1, j - 1);
      SubtreeInSecond(nodes[..1], rest, at, j - 1);
      assert nodes == nodes[..1] + rest;
    }
  }

  lemma {:induction false} SubtreeInsideAll(decls: seq<StateDecl>, parent: nat, depth: nat, at: nat, j: nat)
    requires j < SizeAll(decls)
    ensures HoldsSubtree(LayoutAll(decls, parent, depth, at), at, j)
    decreases decls
  {
    hide Layout, HoldsSubtree;
    var n := SizeAll(Front(decls));
    var left := LayoutAll(Front(decls), parent, depth, at);
    var right := Layout(Final(decls), Some(parent), depth, at + n);
    if j < n {
      SubtreeInsideAll(Front(decls), parent, depth, at, j);
      SubtreeInFirst(left, right, at, j);
    } else {
      SubtreeInside(Final(decls), Some(parent), depth, at + n, j - n);
      SubtreeInSecond(left, right, at, j - n);
    }
  }

  lemma SubtreeInFirst(left: seq<Node>, right: seq<Node>, at: nat, j: nat)
    requires j < |left| && HoldsSubtree(left, at, j)
    ensures HoldsSubtree(left + right, at, j)
  {
    hide Layout;
    hide Size;
    var k := Size(left[j].body);
    assert (left + right)[j..j + k] == left[j..j + k];
  }

  lemma SubtreeInSecond(left: seq<Node>, right: seq<Node>, at: nat, j: nat)
    requires j < |right| && HoldsSubtree(right, at + |left|, j)
    ensures HoldsSubtree(left + right, at, |left| + j)
  {
    hide Layout;
    hide Size;
    var k := Size(right[j].body);
    assert (left + right)[|left| + j..|left| + j + k] == right[j..j + k];
  }

  /** Where a node of a sibling list hangs: from `parent` when it is one of the siblings, and
      otherwise from an earlier node of the list whose subtree it is in. */
  predicate Hangs(nodes: seq<Node>, kids: seq<nat>, parent: nat, depth: nat, at: nat, j: nat)
    requires j < |nodes|
  {
    && nodes[j].parent.Some?
    && var p := nodes[j].parent.value;
       if at + j in kids then p == parent && nodes[j].depth == depth
       else at <= p < at + j < p + Size(nodes[p - at].body) && nodes[j].depth == nodes[p - at].depth + 1
  }

  lemma {:induction false} HangsInside(decls: seq<StateDecl>, parent: nat, depth: nat, at: nat, j: nat)
    requires j < SizeAll(decls)
    ensures Hangs(LayoutAll(decls, parent, depth, at), Kids(decls, at), parent, depth, at, j)
    decreases decls
  {
    hide Layout;
    hide Size;
    var n := SizeAll(Front(decls));
    var left := LayoutAll(Front(decls), parent, depth, at);
    var right := Layout(Final(decls), Some(parent), depth, at + n);
    KidsInRange(Front(decls), at);
    if j < n {
      HangsInside(Front(decls), parent, depth, at, j);
      HangsInFirst(left, right, Kids(Front(decls), at), parent, depth, at, j);
    } else if j > n {
      HangsBelow(Final(decls), parent, depth, at + n, j - n);
      HangsInSecond(left, right, Kids(Front(decls), at), parent, depth, at, j - n);
    }
  }

  lemma HangsInFirst(left: seq<Node>, right: seq<Node>, kids: seq<nat>, parent: nat, depth: nat, at: nat, j: nat)
    requires j < |left| && Hangs(left, kids, parent, depth, at, j)
    ensures Hangs(left + right, kids + [at + |left|], parent, depth, at, j)
  {
  }

  lemma HangsInSecond(left: seq<Node>, right: seq<Node>, kids: seq<nat>, parent: nat, depth: nat, at: nat, j: nat)
    requires 0 < j < |right| && Hangs(right, [at + |left|], parent, depth, at + |left|, j)
    requires forall k :: k in kids ==> k < at + |left|
    ensures Hangs(left + right, kids + [at + |left|], parent, depth, at, |left| + j)
  {
  }

  /** The states below a declared state hang from it or from one another. */
  lemma {:induction false} HangsBelow(decl: StateDecl, parent: nat, depth: nat, at: nat, j: nat)
    requires 0 < j < Size(decl.body)
    ensures Hangs(Layout(decl, Some(parent), depth, at), [at], parent, depth, at, j)
    decreases decl, 0
  {
    HangsInside(decl.body.children, at, depth + 1, at + 1, j - 1);
  }

  lemma {:induction false} KidsInRange(decls: seq<StateDecl>, at: nat)
    ensures forall k :: k in Kids(decls, at) ==> at <= k < at + SizeAll(decls)
    decreases decls
  {
    if decls != [] { KidsInRange(Front(decls), at); }
  }

  /** In a whole chart: every state but the root hangs from an earlier one, one level up. */
  lemma ParentBefore(body: Body, t: nat)
    requires 0 < t < Size(body)
    ensures var nodes := ChartLayout(body);
            && nodes[t].parent.Some? && nodes[t].parent.value < t
            && nodes[t].depth == nodes[nodes[t].parent.value].depth + 1
  {
    HangsInside(body.children, 0, 1, 1, t - 1);
  }

  /** A state lies inside the interval of its parent. */
  lemma ParentIsNear(body: Body, t: nat)
    requires 0 < t < Size(body)
    ensures var nodes := ChartLayout(body);
      && nodes[t].parent.Some? && nodes[t].parent.value < t
      && var p := nodes[t].parent.value; t < p + Size(nodes[p].body)
  {
    HangsInside(body.children, 0, 1, 1, t - 1);
  }

  /** Child lists invert parent links. */
  lemma KidsInvertParents(body: Body, s: nat, t: nat)
    requires s < Size(body) && t < Size(body)
    ensures t in ChartLayout(body)[s].kids <==> ChartLayout(body)[t].parent == Some(s)
  {
    hide LayoutAll, Size, SizeAll;
    var nodes := ChartLayout(body);
    SubtreeInside(StateDecl(ROOT_NAME, body), None, 0, 0, s);
    var sub := SubLayout(nodes, 0, s);
    var children := nodes[s].body.children;
    assert sub[0] == nodes[s..s + Size(nodes[s].body)][0] == nodes[s];
    KidsInRange(children, s + 1);
    if s < t < s + Size(nodes[s].body) {
      HangsInside(children, s, nodes[s].depth + 1, s + 1, t - s - 1);
      assert nodes[t] == sub[t - s];
    } else {
      if 0 < t { ParentBefore(body, t); }
      if t > s && nodes[t].parent == Some(s) { ParentIsNear(body, t); }
    }
  }

  /** The chart's tree is the laid-out one. */
  predicate HasLayout(c: Chart, body: Body) {
    && |c.states| == Size(body)
    && forall s :: 0 <= s < |c.states| ==> PlacedAs(c.states[s], ChartLayout(body)[s])
  }

  predicate PlacedAs(state: State, node: Node) {
    state.parent == node.parent && state.depth == node.depth && state.children == node.kids
  }

  /** Parents come first, at one level less. */
  lemma LayoutIsTree(c: Chart, body: Body)
    requires HasLayout(c, body)
    ensures IsTree(c)
  {
    assert PlacedAs(c.states[0], ChartLayout(body)[0]);
    forall s: nat | 0 < s < |c.states| ensures IsChild(c, s) {
      ParentBefore(body, s);
      assert PlacedAs(c.states[s], ChartLayout(body)[s]);
      assert PlacedAs(c.states[c.states[s].parent.value], ChartLayout(body)[c.states[s].parent.value]);
    }
  }

  lemma ChildrenInvertParents(c: Chart, body: Body, s: nat, t: nat)
    requires HasLayout(c, body) && s < |c.states| && t < |c.states|
    ensures t in c.states[s].children <==> c.states[t].parent == Some(s)
  {
    KidsInvertParents(body, s, t);
    assert PlacedAs(c.states[s], ChartLayout(body)[s]);
    assert PlacedAs(c.states[t], ChartLayout(body)[t]);
  }

  /** Ids are preorder: the states at or below `s` are exactly those numbered from `s` up to the
      size of its declaration. */
  lemma {:induction false} SubtreeIsInterval(c: Chart, body: Body, s: nat, t: nat)
    requires HasLayout(c, body) && IsTree(c) && s < |c.states| && t < |c.states|
    ensures OnPath(c, s, t) <==> s <= t < s + Size(ChartLayout(body)[s].body)
    decreases t
  {
    var nodes := ChartLayout(body);
    if t > s {
      ParentIsNear(body, t);
      assert PlacedAs(c.states[t], nodes[t]);
      var p := nodes[t].parent.value;
      assert RootPath(c, t) == RootPath(c, p) + [t];
      SubtreeIsInterval(c, body, s, p);
      if t < s + Size(nodes[s].body) { IntervalIsClosed(body, s, t); }
      if s <= p < s + Size(nodes[s].body) { IntervalsNest(body, s, p); }
    }
  }

  lemma IntervalsNest(body: Body, s: nat, t: nat)
    requires s < Size(body) && s <= t < s + Size(ChartLayout(body)[s].body)
    ensures t < Size(body)
    ensures t + Size(ChartLayout(body)[t].body) <= s + Size(ChartLayout(body)[s].body) <= Size(body)
  {
    var nodes := ChartLayout(body);
    SubtreeInside(StateDecl(ROOT_NAME, body), None, 0, 0, s);
    var sub := SubLayout(nodes, 0, s);
    assert nodes[s..s + Size(nodes[s].body)][t - s] == nodes[t];
    SubtreeInside(StateDecl(nodes[s].name, nodes[s].body), nodes[s].parent, nodes[s].depth, s, t - s);
  }

  /** No state strictly inside an interval hangs from outside it. */
  lemma IntervalIsClosed(body: Body, s: nat, t: nat)
    requires s < Size(body) && s < t < s + Size(ChartLayout(body)[s].body)
    ensures t < Size(body) && ChartLayout(body)[t].parent.Some? && s <= ChartLayout(body)[t].parent.value
  {
    var nodes := ChartLayout(body);
    SubtreeInside(StateDecl(ROOT_NAME, body), None, 0, 0, s);
    HangsInside(nodes[s].body.children, s, nodes[s].depth + 1, s + 1, t - s - 1);
    assert nodes[s..s + Size(nodes[s].body)][t - s] == nodes[t];
  }
}
