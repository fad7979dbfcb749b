/** The transition- and terminate-path precomputation, and the folded tables the machine indexes. */
module Paths {
  import opened Wrappers
  import opened Charts
  import opened Tree

  /** The deepest state shared by two root paths, walking both up from equal depth. */
  method MeetUp(c: Chart, ghost from: nat, ghost to: nat, a0: nat, b0: nat, ghost d0: nat) returns (r: Option<nat>)
    requires IsTree(c) && from < |c.states| && to < |c.states|
    requires d0 < |RootPath(c, from)| && d0 < |RootPath(c, to)|
    requires a0 == RootPath(c, from)[d0] && b0 == RootPath(c, to)[d0]
    requires d0 == |RootPath(c, from)| - 1 || d0 == |RootPath(c, to)| - 1
    ensures r == Some(Lca(c, from, to))
  {
    hide RootPath;
    ghost var p, q := RootPath(c, from), RootPath(c, to);
    ghost var d: nat := d0;
    var a, b := a0, b0;
    StepUp(c, from, d);
    StepUp(c, to, d);
    while a != b
      invariant d < |p| && d < |q| && a == p[d] && b == q[d] && a < |c.states| && b < |c.states|
      invariant d + 1 < |p| && d + 1 < |q| ==> p[d + 1] != q[d + 1]
      decreases d
    {
      StepUp(c, from, d);
      StepUp(c, to, d);
      match c.states[a].parent {
        case None => return None;
        case Some(x) => a := x;
      }
      match c.states[b].parent {
        case None => return None;
        case Some(x) => b := x;
      }
      d := d - 1;
      StepUp(c, from, d);
      StepUp(c, to, d);
    }
    AgreeUpTo(c, from, to, d, d);
    CommonLenUnique(p, q, d + 1);
    r := Some(a);
  }

  /** `s` moved up to depth `target`. */
  method RaiseTo(c: Chart, s: nat, target: nat) returns (r: Option<nat>)
    requires IsTree(c) && s < |c.states|
    ensures r == Some(RootPath(c, s)[if target < |RootPath(c, s)| then target else |RootPath(c, s)| - 1])
  {
    ghost var p := RootPath(c, s);
    var a, d := s, c.states[s].depth;
    while d > target
      invariant 0 <= d < |p| && a == p[d] && a < |c.states|
      invariant target <= d || d == |p| - 1
    {
      StepUp(c, s, d);
      match c.states[a].parent {
        case None => return None;
        case Some(x) => a := x;
      }
      d := d - 1;
      StepUp(c, s, d);
    }
    r := Some(a);
  }

  method LcaWalk(c: Chart, from: nat, to: nat) returns (r: Option<nat>)
    requires IsTree(c) && from < |c.states| && to < |c.states|
    ensures r == Some(Lca(c, from, to))
  {
    var da, db := c.states[from].depth, c.states[to].depth;
    var a := RaiseTo(c, from, db);
    if a.None? { return None; }
    var b := RaiseTo(c, to, da);
    if b.None? { return None; }
    r := MeetUp(c, from, to, a.value, b.value, if da < db then da else db);
  }

  method IsStrictAncestor(c: Chart, anc: nat, desc: nat) returns (r: bool)
    requires IsTree(c) && desc < |c.states|
    ensures r <==> anc != desc && OnPath(c, anc, desc)
  {
    ghost var p := RootPath(c, desc);
    ghost var d: int := |p| - 2;
    StepUp(c, desc, |p| - 1);
    var cur := c.states[desc].parent;
    while cur.Some?
      invariant -1 <= d < |p| - 1
      invariant cur == if d < 0 then None else Some(p[d])
      invariant forall i :: d < i < |p| - 1 ==> p[i] != anc
      decreases d
    {
      if cur.value == anc {
        RootPathDistinct(c, desc, d, |p| - 1);
        return true;
      }
      StepUp(c, desc, d);
      cur := c.states[cur.value].parent;
      d := d - 1;
    }
    r := false;
  }

  /** The states from `from` up to but excluding `stop`. */
  method WalkUp(c: Chart, from: nat, ghost k: nat, stop: Option<nat>) returns (path: seq<nat>)
    requires IsTree(c) && from < |c.states|
    requires 1 <= k <= |RootPath(c, from)| && stop == Some(RootPath(c, from)[k - 1])
    ensures path == Reverse(RootPath(c, from)[k..])
  {
    ghost var p := RootPath(c, from);
    ghost var d: nat := |p| - 1;
    path := [];
    var cur := from;
    while Some(cur) != stop
      invariant k - 1 <= d < |p| && cur == p[d] && cur < |c.states|
      invariant |path| == |p| - 1 - d
      invariant forall i :: 0 <= i < |path| ==> path[i] == p[|p| - 1 - i]
      decreases d
    {
      path := path + [cur];
      StepUp(c, from, d);
      match c.states[cur].parent {
        case None => break;
        case Some(x) => cur := x;
      }
      d := d - 1;
      StepUp(c, from, d);
    }
    if k - 1 < d { RootPathDistinct(c, from, k - 1, d); }
  }

  lemma StrictAncestorShares(c: Chart, from: nat, to: nat)
    requires IsTree(c) && from < |c.states| && to < |c.states|
    requires OnPath(c, to, from)
    ensures Shared(c, from, to) == |RootPath(c, to)|
    ensures RootPath(c, to) <= RootPath(c, from)
  {
    var p := RootPath(c, from);
    var i: nat :| i < |p| && p[i] == to;
    PrefixIsRootPath(c, from, i);
    AgreeUpTo(c, from, to, i, i);
    CommonLenUnique(p, RootPath(c, to), i + 1);
  }

  lemma SelfRoute(c: Chart, s: nat)
    requires IsTree(c) && s < |c.states|
    ensures ExitRoute(c, s, s) == [s] && EnterRoute(c, s, s) == [s]
  {
  }

  method ComputeOne(c: Chart, from: nat, to: nat) returns (exitPath: seq<nat>, enterPath: seq<nat>)
    requires IsTree(c) && from < |c.states| && to < |c.states|
    ensures exitPath == ExitRoute(c, from, to)
    ensures enterPath == EnterRoute(c, from, to)
  {
    var up := IsStrictAncestor(c, to, from);
    if from != to && up {
      StrictAncestorShares(c, from, to);
      exitPath := WalkUp(c, from, |RootPath(c, to)|, Some(to));
      return exitPath, [];
    }
    if from == to {
      SelfRoute(c, to);
      return [to], [to];
    }
    var lca := LcaWalk(c, from, to);
    exitPath := WalkUp(c, from, Shared(c, from, to), lca);
    var rev := WalkUp(c, to, Shared(c, from, to), lca);
    enterPath := Reverse(rev);
  }
}
