/** Root-to-state paths, common ancestors, and the route a transition takes. */
module Tree {
  import opened Wrappers
  import opened Charts

  /** The active path when `s` is the innermost active state: root first, `s` last. */
  function RootPath(c: Chart, s: nat): (p: seq<nat>)
    requires IsTree(c) && s < |c.states|
    ensures |p| == c.states[s].depth + 1
    ensures p[0] == 0 && p[|p| - 1] == s
    ensures forall i :: 0 <= i < |p| ==> p[i] <= s
  {
    if s == 0 then [0]
    else assert IsChild(c, s); RootPath(c, c.states[s].parent.value) + [s]
  }

  /** Two root paths that hold the same state agree up to it, at equal depth. */
  lemma AgreeUpTo(c: Chart, s: nat, t: nat, i: nat, j: nat)
    requires IsTree(c) && s < |c.states| && t < |c.states|
    requires i < |RootPath(c, s)| && j < |RootPath(c, t)| && RootPath(c, s)[i] == RootPath(c, t)[j]
    ensures i == j
    ensures forall x :: 0 <= x <= i ==> RootPath(c, s)[x] == RootPath(c, t)[x]
  {
    var p, q := RootPath(c, s), RootPath(c, t);
    PrefixIsRootPath(c, s, i);
    PrefixIsRootPath(c, t, j);
    forall x | 0 <= x <= i ensures p[x] == q[x] {
      assert p[..i + 1][x] == q[..i + 1][x];
    }
  }

  function Last<T>(p: seq<T>): T
    requires p != []
  {
    p[|p| - 1]
  }

  /** `a` is `s` or one of its ancestors. */
  predicate OnPath(c: Chart, a: nat, s: nat)
    requires IsTree(c) && s < |c.states|
  {
    a in RootPath(c, s)
  }

  /** Every prefix of a root path is the root path of its last state. */
  lemma {:induction false} PrefixIsRootPath(c: Chart, s: nat, k: nat)
    requires IsTree(c) && s < |c.states| && k < |RootPath(c, s)|
    ensures RootPath(c, RootPath(c, s)[k]) == RootPath(c, s)[..k + 1]
    ensures c.states[RootPath(c, s)[k]].depth == k
    ensures c.states[RootPath(c, s)[k]].parent == if k == 0 then None else Some(RootPath(c, s)[k - 1])
  {
    var p := RootPath(c, s);
    if k == |p| - 1 {
      assert p[..k + 1] == p;
      if s != 0 { assert IsChild(c, s); }
    } else {
      assert IsChild(c, s);
      var q := RootPath(c, c.states[s].parent.value);
      assert p == q + [s];
      PrefixIsRootPath(c, c.states[s].parent.value, k);
      assert p[..k + 1] == q[..k + 1];
    }
  }

  /** Walking up: the parent of the state at index `k > 0` is the one before it. */
  lemma StepUp(c: Chart, s: nat, k: nat)
    requires IsTree(c) && s < |c.states| && k < |RootPath(c, s)|
    ensures RootPath(c, s)[k] < |c.states|
    ensures c.states[RootPath(c, s)[k]].parent == if k == 0 then None else Some(RootPath(c, s)[k - 1])
    ensures c.states[RootPath(c, s)[k]].depth == k
  {
    PrefixIsRootPath(c, s, k);
  }

  /** Root paths repeat no state. */
  lemma {:induction false} RootPathDistinct(c: Chart, s: nat, i: nat, j: nat)
    requires IsTree(c) && s < |c.states| && i < j < |RootPath(c, s)|
    ensures RootPath(c, s)[i] < RootPath(c, s)[j]
  {
    var p := RootPath(c, s);
    PrefixIsRootPath(c, s, j);
    PrefixIsRootPath(c, s, j - 1);
    assert IsChild(c, p[j]);
    if i < j - 1 { RootPathDistinct(c, s, i, j - 1); }
  }

  /** Length of the longest common prefix. */
  function CommonLen(p: seq<nat>, q: seq<nat>): (k: nat)
    ensures k <= |p| && k <= |q|
    ensures forall i :: 0 <= i < k ==> p[i] == q[i]
    ensures k < |p| && k < |q| ==> p[k] != q[k]
  {
    CommonFrom(p, q, 0)
  }

  function CommonFrom(p: seq<nat>, q: seq<nat>, i: nat): (k: nat)
    requires i <= |p| && i <= |q| && forall j :: 0 <= j < i ==> p[j] == q[j]
    ensures k <= |p| && k <= |q|
    ensures forall j :: 0 <= j < k ==> p[j] == q[j]
    ensures k < |p| && k < |q| ==> p[k] != q[k]
    decreases |p| - i
  {
    if i < |p| && i < |q| && p[i] == q[i] then CommonFrom(p, q, i + 1) else i
  }

  lemma CommonLenUnique(p: seq<nat>, q: seq<nat>, k: nat)
    requires k <= |p| && k <= |q|
    requires forall i :: 0 <= i < k ==> p[i] == q[i]
    requires k < |p| && k < |q| ==> p[k] != q[k]
    ensures k == CommonLen(p, q)
  {
  }

  function Reverse(s: seq<nat>): (r: seq<nat>)
    ensures |r| == |s|
    ensures forall i :: 0 <= i < |s| ==> r[i] == s[|s| - 1 - i]
  {
    if s == [] then [] else [Last(s)] + Reverse(s[..|s| - 1])
  }

  /** Number of states shared by the paths to `from` and `to`: depth of their LCA plus one. */
  function Shared(c: Chart, from: nat, to: nat): (k: nat)
    requires IsTree(c) && from < |c.states| && to < |c.states|
    ensures 1 <= k <= |RootPath(c, from)| && k <= |RootPath(c, to)|
  {
    CommonLen(RootPath(c, from), RootPath(c, to))
  }

  /** The deepest common ancestor-or-self. */
  function Lca(c: Chart, from: nat, to: nat): nat
    requires IsTree(c) && from < |c.states| && to < |c.states|
  {
    RootPath(c, from)[Shared(c, from, to) - 1]
  }

  /** How many states of the active path a transition to `to` leaves untouched: those shared
      with the path to `to`, except that a self-transition leaves the state itself. */
  function Kept(c: Chart, path: seq<nat>, to: nat): (k: nat)
    requires IsTree(c) && to < |c.states| && path != []
    ensures k <= |path| && k <= |RootPath(c, to)|
  {
    if path == RootPath(c, to) then |path| - 1 else CommonLen(path, RootPath(c, to))
  }

  /** States a transition exits, innermost first. */
  function ExitRoute(c: Chart, from: nat, to: nat): seq<nat>
    requires IsTree(c) && from < |c.states| && to < |c.states|
  {
    Reverse(RootPath(c, from)[Kept(c, RootPath(c, from), to)..])
  }

  /** States a transition enters, outermost first. */
  function EnterRoute(c: Chart, from: nat, to: nat): seq<nat>
    requires IsTree(c) && from < |c.states| && to < |c.states|
  {
    RootPath(c, to)[Kept(c, RootPath(c, from), to)..]
  }

  lemma LcaPath(c: Chart, from: nat, to: nat)
    requires IsTree(c) && from < |c.states| && to < |c.states|
    ensures Lca(c, from, to) < |c.states|
    ensures RootPath(c, Lca(c, from, to)) == RootPath(c, from)[..Shared(c, from, to)]
  {
    PrefixIsRootPath(c, from, Shared(c, from, to) - 1);
  }

  lemma CommonIndex(c: Chart, from: nat, to: nat, i: nat, j: nat)
    requires IsTree(c) && from < |c.states| && to < |c.states|
    requires i < |RootPath(c, from)| && j < |RootPath(c, to)| && RootPath(c, from)[i] == RootPath(c, to)[j]
    ensures i < Shared(c, from, to)
  {
    AgreeUpTo(c, from, to, i, j);
  }

  /** A state is a common ancestor-or-self of `from` and `to` exactly when it is on the path to
      their LCA: the LCA is the deepest one. */
  lemma LcaIsDeepest(c: Chart, from: nat, to: nat, a: nat)
    requires IsTree(c) && from < |c.states| && to < |c.states|
    ensures Lca(c, from, to) < |c.states|
    ensures (OnPath(c, a, from) && OnPath(c, a, to)) <==> OnPath(c, a, Lca(c, from, to))
  {
    var p, q, k := RootPath(c, from), RootPath(c, to), Shared(c, from, to);
    LcaPath(c, from, to);
    if a in p && a in q {
      var i: nat :| i < |p| && p[i] == a;
      var j: nat :| j < |q| && q[j] == a;
      CommonIndex(c, from, to, i, j);
      assert p[..k][i] == a;
    }
    if a in p[..k] {
      var i: nat :| i < k && p[..k][i] == a;
      assert p[i] == a && q[i] == a;
    }
  }
}
