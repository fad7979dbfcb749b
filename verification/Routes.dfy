/** What the precomputed routes are: the unique simple tree path between two states, cut at
    their deepest common ancestor. */
module Routes {
  import opened Wrappers
  import opened Charts
  import opened Tree
  import Paths

  /** `to` is a strict ancestor of `from`. */
  predicate IsUp(c: Chart, from: nat, to: nat)
    requires IsTree(c) && from < |c.states|
  {
    from != to && OnPath(c, to, from)
  }

  lemma SameLast(p: seq<nat>, q: seq<nat>)
    requires p != [] && |p| == |q| == CommonLen(p, q)
    ensures Last(p) == Last(q)
  {
  }

  lemma DistinctStatesDistinctPaths(c: Chart, from: nat, to: nat)
    requires IsTree(c) && from < |c.states| && to < |c.states| && from != to
    ensures Kept(c, RootPath(c, from), to) == Shared(c, from, to)
    ensures Shared(c, from, to) < |RootPath(c, from)| || Shared(c, from, to) < |RootPath(c, to)|
  {
    var p, q, k := RootPath(c, from), RootPath(c, to), Shared(c, from, to);
    assert Last(p) == from && Last(q) == to;
    if k == |p| && k == |q| { SameLast(p, q); }
  }

  /** Nothing is entered exactly when the target is a strict ancestor; what is entered always
      ends in the target, and what is exited always begins with the source. */
  lemma RouteEnds(c: Chart, from: nat, to: nat)
    requires IsTree(c) && from < |c.states| && to < |c.states|
    ensures EnterRoute(c, from, to) == [] <==> IsUp(c, from, to)
    ensures EnterRoute(c, from, to) != [] ==> Last(EnterRoute(c, from, to)) == to
    ensures ExitRoute(c, from, to) != [] ==> ExitRoute(c, from, to)[0] == from
    ensures from == to ==> ExitRoute(c, from, to) == [to] && EnterRoute(c, from, to) == [to]
  {
    if from == to {
      Paths.SelfRoute(c, to);
    } else {
      DistinctStatesDistinctPaths(c, from, to);
      var p, q, k := RootPath(c, from), RootPath(c, to), Shared(c, from, to);
      if OnPath(c, to, from) { Paths.StrictAncestorShares(c, from, to); }
      if k == |q| { assert p[k - 1] == q[k - 1] == to; }
    }
  }

  /** The number of hops is the tree distance through the lowest common ancestor. */
  lemma RouteLength(c: Chart, from: nat, to: nat)
    requires IsTree(c) && from < |c.states| && to < |c.states| && from != to
    ensures Lca(c, from, to) < |c.states|
    ensures |ExitRoute(c, from, to)| == c.states[from].depth - c.states[Lca(c, from, to)].depth
    ensures |EnterRoute(c, from, to)| == c.states[to].depth - c.states[Lca(c, from, to)].depth
  {
    DistinctStatesDistinctPaths(c, from, to);
    StepUp(c, from, Shared(c, from, to) - 1);
  }

  /** A transition between different states neither exits nor enters any common ancestor-or-self;
      a self-transition, no proper ancestor. */
  lemma RouteSparesCommon(c: Chart, from: nat, to: nat, a: nat)
    requires IsTree(c) && from < |c.states| && to < |c.states|
    requires OnPath(c, a, from) && OnPath(c, a, to) && (from == to ==> a != to)
    ensures a !in ExitRoute(c, from, to) && a !in EnterRoute(c, from, to)
  {
    if from == to {
      Paths.SelfRoute(c, to);
    } else {
      DistinctStatesDistinctPaths(c, from, to);
      var p, q, k := RootPath(c, from), RootPath(c, to), Shared(c, from, to);
      var i: nat :| i < |p| && p[i] == a;
      var j: nat :| j < |q| && q[j] == a;
      CommonIndex(c, from, to, i, j);
      AgreeUpTo(c, from, to, i, j);
      forall x | k <= x < |p| ensures p[x] != a { RootPathDistinct(c, from, i, x); }
      forall x | k <= x < |q| ensures q[x] != a { RootPathDistinct(c, to, j, x); }
    }
  }

  // ----- uniqueness -----

  predicate Adjacent(c: Chart, a: nat, b: nat) {
    a < |c.states| && b < |c.states| && (c.states[a].parent == Some(b) || c.states[b].parent == Some(a))
  }

  /** A walk along tree edges that visits no state twice. */
  predicate IsSimpleWalk(c: Chart, p: seq<nat>) {
    && p != []
    && (forall i :: 0 <= i < |p| ==> p[i] < |c.states|)
    && (forall i :: 0 <= i < |p| - 1 ==> Adjacent(c, p[i], p[i + 1]))
    && (forall i, j :: 0 <= i < j < |p| ==> p[i] != p[j])
  }

  /** The route through the LCA, endpoints included: exits, the LCA, enters. */
  function Through(c: Chart, from: nat, to: nat): seq<nat>
    requires IsTree(c) && from < |c.states| && to < |c.states|
  {
    Join(RootPath(c, from), RootPath(c, to), Shared(c, from, to))
  }

  /** Up `p` to index `k - 1`, then down `q` from index `k`. */
  function Join(p: seq<nat>, q: seq<nat>, k: nat): seq<nat>
    requires 1 <= k <= |p| && k <= |q|
  {
    Reverse(p[k..]) + [p[k - 1]] + q[k..]
  }

  lemma JoinDown(p: seq<nat>, x: nat, q: seq<nat>)
    requires 1 <= |p| < |q| && q[|p|] == x
    ensures Join(p, q, |p|) == [p[|p| - 1]] + Join(p + [x], q, |p| + 1)
  {
    var px := p + [x];
    assert p[|p|..] == [] && px[|p| + 1..] == [];
    assert Join(p, q, |p|) == [p[|p| - 1]] + q[|p|..];
    assert q[|p|..] == [x] + q[|p| + 1..];
    assert Join(px, q, |p| + 1) == [x] + q[|p| + 1..];
  }

  lemma JoinUp(p: seq<nat>, x: nat, q: seq<nat>, k: nat)
    requires 1 <= k <= |p| && k <= |q|
    ensures Join(p + [x], q, k) == [x] + Join(p, q, k)
  {
    var px := p + [x];
    assert px[k..] == p[k..] + [x];
    ReverseSnoc(p[k..], x);
    assert px[k - 1] == p[k - 1];
  }

  lemma ParentPath(c: Chart, s: nat, p: nat)
    requires IsTree(c) && s < |c.states| && c.states[s].parent == Some(p)
    ensures p < |c.states| && RootPath(c, s) == RootPath(c, p) + [s]
  {
    assert s > 0 && IsChild(c, s);
  }

  lemma ThroughSelf(c: Chart, s: nat)
    requires IsTree(c) && s < |c.states|
    ensures Through(c, s, s) == [s]
  {
    CommonLenUnique(RootPath(c, s), RootPath(c, s), |RootPath(c, s)|);
  }

  /** Between different states, the route is the exits, the LCA, then the enters. */
  lemma ThroughIsRoute(c: Chart, from: nat, to: nat)
    requires IsTree(c) && from < |c.states| && to < |c.states| && from != to
    ensures Through(c, from, to) == ExitRoute(c, from, to) + [Lca(c, from, to)] + EnterRoute(c, from, to)
  {
    DistinctStatesDistinctPaths(c, from, to);
  }

  lemma ReverseSnoc(a: seq<nat>, x: nat)
    ensures Reverse(a + [x]) == [x] + Reverse(a)
  {
    assert (a + [x])[..|a|] == a;
  }

  lemma SharedWithChild(c: Chart, x: nat, s: nat, to: nat)
    requires IsTree(c) && x < |c.states| && to < |c.states| && s < |c.states| && c.states[x].parent == Some(s)
    ensures OnPath(c, x, to) ==>
      && Shared(c, s, to) == |RootPath(c, s)| && Shared(c, x, to) == |RootPath(c, s)| + 1
      && |RootPath(c, s)| < |RootPath(c, to)| && RootPath(c, to)[|RootPath(c, s)|] == x
    ensures !OnPath(c, x, to) ==> Shared(c, x, to) == Shared(c, s, to)
  {
    ParentPath(c, x, s);
    var ps, px, q := RootPath(c, s), RootPath(c, x), RootPath(c, to);
    var k := CommonLen(px, q);
    assert k == |px| ==> q[k - 1] == x;
    if x in q {
      var j: nat :| j < |q| && q[j] == x;
      AgreeUpTo(c, x, to, |ps|, j);
      CommonLenUnique(px, q, |px|);
      CommonLenUnique(ps, q, |ps|);
    } else {
      CommonLenUnique(ps, q, k);
    }
  }

  /** Where the target lies at or below a child, the route from the state goes through it;
      elsewhere the route from the child comes straight back. */
  lemma ThroughChild(c: Chart, s: nat, x: nat, to: nat)
    requires IsTree(c) && x < |c.states| && to < |c.states| && s < |c.states| && c.states[x].parent == Some(s)
    ensures if OnPath(c, x, to) then Through(c, s, to) == [s] + Through(c, x, to)
      else Through(c, x, to) == [x] + Through(c, s, to)
  {
    ParentPath(c, x, s);
    SharedWithChild(c, x, s, to);
    if OnPath(c, x, to) {
      JoinDown(RootPath(c, s), x, RootPath(c, to));
    } else {
      JoinUp(RootPath(c, s), x, RootPath(c, to), Shared(c, s, to));
    }
  }

  lemma ThroughStarts(c: Chart, from: nat, to: nat)
    requires IsTree(c) && from < |c.states| && to < |c.states|
    ensures Through(c, from, to) != [] && Through(c, from, to)[0] == from
  {
  }

  lemma ThroughPasses(c: Chart, s: nat, x: nat, to: nat)
    requires IsTree(c) && s < |c.states| && x < |c.states| && to < |c.states|
    requires c.states[x].parent == Some(s) && OnPath(c, x, to)
    ensures x in Through(c, s, to)
  {
    hide Through, OnPath;
    ThroughChild(c, s, x, to);
    ThroughStarts(c, x, to);
    assert Through(c, s, to)[1] == x;
  }

  /** Any simple walk between two states is the route through their LCA. */
  lemma {:induction false} SimpleWalkIsUnique(c: Chart, walk: seq<nat>)
    requires IsTree(c) && IsSimpleWalk(c, walk)
    ensures walk == Through(c, walk[0], Last(walk))
    decreases |walk|
  {
    hide RootPath, Through, OnPath;
    var from, to := walk[0], Last(walk);
    if |walk| == 1 {
      ThroughSelf(c, from);
    } else {
      var rest, x := walk[1..], walk[1];
      assert Adjacent(c, walk[0], walk[1]);
      forall i | 0 <= i < |rest| - 1 ensures Adjacent(c, rest[i], rest[i + 1]) {
        assert Adjacent(c, walk[i + 1], walk[i + 2]);
      }
      SimpleWalkIsUnique(c, rest);
      assert from !in rest;
      ThroughStarts(c, x, to);
      ThroughStarts(c, from, to);
      if c.states[from].parent == Some(x) {
        ThroughChild(c, x, from, to);
        if OnPath(c, from, to) { ThroughPasses(c, x, from, to); }
      } else {
        ThroughChild(c, from, x, to);
      }
    }
  }
}
