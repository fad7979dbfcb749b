/** Compile-time validation: the default-cycle check and the per-state rules. */
module Validate {
  import opened Wrappers
  import opened Charts
  import opened Handlers

  /** The `default(...)` edge out of `s`. */
  function Next(c: Chart, s: nat): Option<nat>
    requires s < |c.states|
  {
    c.states[s].defaultTarget
  }

  /** A closed walk along default edges. */
  predicate IsDefaultCycle(c: Chart, cycle: seq<nat>) {
    && cycle != []
    && (forall i :: 0 <= i < |cycle| ==> cycle[i] < |c.states|)
    && (forall i :: 0 <= i < |cycle| - 1 ==> Next(c, cycle[i]) == Some(cycle[i + 1]))
    && Next(c, cycle[|cycle| - 1]) == Some(cycle[0])
  }

  ghost predicate HasDefaultCycle(c: Chart) {
    exists cycle :: IsDefaultCycle(c, cycle)
  }

  /** Ranks that every default edge lowers, all below the number of states. */
  predicate IsRanking(c: Chart, rank: seq<nat>) {
    && |rank| == |c.states|
    && (forall s: nat :: s < |c.states| ==> RankFalls(c, rank, s))
  }

  predicate RankFalls(c: Chart, rank: seq<nat>, s: nat)
    requires |rank| == |c.states| && s < |c.states|
  {
    && rank[s] < |c.states|
    && (Next(c, s).Some? ==> Next(c, s).value < |rank| && rank[Next(c, s).value] < rank[s])
  }

  ghost predicate DefaultsTerminate(c: Chart) {
    exists rank :: IsRanking(c, rank)
  }

  lemma {:induction false} RankFallsAlong(c: Chart, rank: seq<nat>, cycle: seq<nat>, i: nat)
    requires IsRanking(c, rank) && IsDefaultCycle(c, cycle) && i < |cycle|
    ensures i > 0 ==> rank[cycle[i]] < rank[cycle[0]]
  {
    if i > 0 {
      RankFallsAlong(c, rank, cycle, i - 1);
      assert RankFalls(c, rank, cycle[i - 1]);
      assert Next(c, cycle[i - 1]) == Some(cycle[i]);
    }
  }

  lemma RankedHasNoCycle(c: Chart, rank: seq<nat>, cycle: seq<nat>)
    requires IsRanking(c, rank)
    ensures !IsDefaultCycle(c, cycle)
  {
    if IsDefaultCycle(c, cycle) {
      assert RankFalls(c, rank, cycle[|cycle| - 1]);
      RankFallsAlong(c, rank, cycle, |cycle| - 1);
    }
  }

  lemma RankingExcludesCycles(c: Chart)
    requires DefaultsTerminate(c)
    ensures !HasDefaultCycle(c)
  {
    var rank :| IsRanking(c, rank);
    forall cycle ensures !IsDefaultCycle(c, cycle) {
      RankedHasNoCycle(c, rank, cycle);
    }
  }

  datatype Color = White | Gray | Black

  /** `done` black states carry ranks below `done`; black states lead only to black ones. */
  ghost predicate Ranked(c: Chart, color: seq<Color>, rank: seq<nat>, done: nat) {
    && |color| == |rank| == |c.states|
    && (forall s :: 0 <= s < |color| && color[s] == Black ==> rank[s] < done)
    && (forall s :: 0 <= s < |color| && color[s] == Black && Next(c, s).Some? ==>
          Next(c, s).value < |color| && color[Next(c, s).value] == Black && rank[Next(c, s).value] < rank[s])
  }

  /** `chain` is a walk along default edges and holds exactly the gray states, each once. */
  ghost predicate IsChain(c: Chart, color: seq<Color>, chain: seq<nat>) {
    && |color| == |c.states|
    && (forall i :: 0 <= i < |chain| ==> chain[i] < |c.states| && color[chain[i]] == Gray)
    && (forall s :: 0 <= s < |color| && color[s] == Gray ==> s in chain)
    && (forall i, j :: 0 <= i < j < |chain| ==> chain[i] != chain[j])
    && (forall i :: 0 <= i < |chain| - 1 ==> Next(c, chain[i]) == Some(chain[i + 1]))
  }

  /** The chain stops at a state without a default, or before a black one. */
  predicate EndsBlack(c: Chart, color: seq<Color>, chain: seq<nat>) {
    && chain != [] && chain[|chain| - 1] < |c.states|
    && var next := Next(c, chain[|chain| - 1]);
       next.None? || (next.value < |color| && color[next.value] == Black)
  }

  function Count(color: seq<Color>, x: Color): nat {
    if color == [] then 0 else Count(color[..|color| - 1], x) + if color[|color| - 1] == x then 1 else 0
  }

  lemma {:induction false} CountUpdate(color: seq<Color>, s: nat, to: Color, x: Color)
    requires s < |color|
    ensures Count(color[s := to], x) + (if color[s] == x then 1 else 0) == Count(color, x) + if to == x then 1 else 0
  {
    var n := |color| - 1;
    if s == n {
      assert color[s := to][..n] == color[..n];
    } else {
      assert color[s := to][..n] == color[..n][s := to];
      CountUpdate(color[..n], s, to, x);
    }
  }

  lemma {:induction false} CountAtMost(color: seq<Color>, x: Color)
    ensures Count(color, x) <= |color|
    ensures Count(color, x) == 0 <==> x !in color
    ensures Count(color, x) == |color| ==> forall s :: 0 <= s < |color| ==> color[s] == x
  {
    if color != [] { CountAtMost(color[..|color| - 1], x); }
  }

  lemma BackEdgeClosesCycle(c: Chart, color: seq<Color>, chain: seq<nat>, cur: nat, at: nat)
    requires IsChain(c, color, chain) && at < |chain| && chain[at] == cur
    requires Next(c, chain[|chain| - 1]) == Some(cur)
    ensures IsDefaultCycle(c, chain[at..])
  {
  }

  lemma ChainGrows(c: Chart, color: seq<Color>, chain: seq<nat>, cur: nat)
    requires IsChain(c, color, chain) && cur < |color| && color[cur] == White
    requires chain != [] ==> Next(c, chain[|chain| - 1]) == Some(cur)
    ensures IsChain(c, color[cur := Gray], chain + [cur])
  {
    var color', chain' := color[cur := Gray], chain + [cur];
    forall s | 0 <= s < |color'| && color'[s] == Gray ensures s in chain' {
      if s == cur { assert chain'[|chain|] == s; }
    }
  }

  /** One chain walk: either it ends (at a state without a default, or at a black one) or it
      comes back to a gray state, which is always found on the chain. */
  method WalkChain(c: Chart, color0: seq<Color>, start: nat)
    returns (color: seq<Color>, chain: seq<nat>, cycle: Option<seq<nat>>)
    requires DefaultsResolved(c) && |color0| == |c.states| && start < |c.states|
    requires color0[start] == White && Gray !in color0
    ensures cycle.Some? ==> IsDefaultCycle(c, cycle.value)
    ensures cycle.None? ==> |color| == |color0| && chain != [] && chain[0] == start && IsChain(c, color, chain)
    ensures cycle.None? ==> forall s :: 0 <= s < |color| ==> color[s] == if s in chain then Gray else color0[s]
    ensures cycle.None? ==> forall s :: s in chain ==> s < |color0| && color0[s] == White
    ensures cycle.None? ==> EndsBlack(c, color, chain)
  {
    hide IsDefaultCycle, Count;
    color, chain := color0, [];
    var cur := start;
    while true
      invariant |color| == |c.states| && cur < |c.states| && IsChain(c, color, chain)
      invariant chain == [] ==> cur == start && color[cur] == White
      invariant chain != [] ==> chain[0] == start && Next(c, chain[|chain| - 1]) == Some(cur)
      invariant forall s :: 0 <= s < |color| ==> color[s] == if s in chain then Gray else color0[s]
      invariant forall s :: s in chain ==> s < |color0| && color0[s] == White
      decreases Count(color, White)
    {
      if color[cur] == Black { return color, chain, None; }
      if color[cur] == Gray {
        var at := Position(chain, cur);
        BackEdgeClosesCycle(c, color, chain, cur, at.value);
        return color, chain, Some(chain[at.value..]);
      }
      CountUpdate(color, cur, Gray, White);
      ChainGrows(c, color, chain, cur);
      color := color[cur := Gray];
      chain := chain + [cur];
      assert DefaultResolved(c, cur);
      match Next(c, cur) {
        case Some(next) => cur := next;
        case None => return color, chain, None;
      }
    }
  }

  /** The chain's first `i` states are black and ranked, everything else as before. */
  ghost predicate PartBlack(color0: seq<Color>, color: seq<Color>, rank0: seq<nat>, rank: seq<nat>,
      chain: seq<nat>, i: nat, done: nat)
    requires i <= |chain|
  {
    && |color| == |color0| == |rank| == |rank0|
    && (forall s :: 0 <= s < |color| ==> color[s] == if s in chain[..i] then Black else color0[s])
    && (forall k :: 0 <= k < i ==> chain[k] < |rank| && rank[chain[k]] == done + |chain| - 1 - k)
    && (forall s :: 0 <= s < |color| && s !in chain[..i] ==> rank[s] == rank0[s])
  }

  lemma PartBlackStep(color0: seq<Color>, color: seq<Color>, rank0: seq<nat>, rank: seq<nat>,
      chain: seq<nat>, i: nat, done: nat)
    requires i < |chain| && PartBlack(color0, color, rank0, rank, chain, i, done)
    requires chain[i] < |color| && forall k :: 0 <= k < i ==> chain[k] != chain[i]
    ensures var rank' := rank[chain[i] := done + |chain| - 1 - i];
      PartBlack(color0, color[chain[i] := Black], rank0, rank', chain, i + 1, done)
  {
    assert chain[..i + 1] == chain[..i] + [chain[i]];
  }

  /** Marks a finished chain black; its states get the next ranks, last state lowest. */
  method Blacken(c: Chart, color0: seq<Color>, chain: seq<nat>, ghost rank0: seq<nat>, ghost done: nat)
    returns (color: seq<Color>, ghost rank: seq<nat>)
    requires Ranked(c, color0, rank0, done) && IsChain(c, color0, chain)
    requires EndsBlack(c, color0, chain)
    requires done == Count(color0, Black)
    ensures Ranked(c, color, rank, done + |chain|)
    ensures forall s :: 0 <= s < |color| ==> color[s] == if s in chain then Black else color0[s]
    ensures Count(color, Black) == done + |chain|
  {
    color, rank := color0, rank0;
    var i := 0;
    while i < |chain|
      invariant i <= |chain| && PartBlack(color0, color, rank0, rank, chain, i, done)
      invariant Count(color, Black) == done + i
    {
      StillGray(c, color0, color, rank0, rank, chain, i, done);
      CountUpdate(color, chain[i], Black, Black);
      PartBlackStep(color0, color, rank0, rank, chain, i, done);
      color := color[chain[i] := Black];
      rank := rank[chain[i] := done + |chain| - 1 - i];
      i := i + 1;
    }
    assert chain[..i] == chain;
    ChainRanked(c, color0, chain, rank0, done, color, rank);
  }

  lemma StillGray(c: Chart, color0: seq<Color>, color: seq<Color>, rank0: seq<nat>, rank: seq<nat>,
      chain: seq<nat>, i: nat, done: nat)
    requires IsChain(c, color0, chain) && i < |chain| && PartBlack(color0, color, rank0, rank, chain, i, done)
    ensures chain[i] < |color| && color[chain[i]] == Gray
    ensures forall k :: 0 <= k < i ==> chain[k] != chain[i]
  {
    assert chain[i] !in chain[..i];
  }

  lemma ChainRanked(c: Chart, color0: seq<Color>, chain: seq<nat>, rank0: seq<nat>, done: nat,
      color: seq<Color>, rank: seq<nat>)
    requires Ranked(c, color0, rank0, done) && IsChain(c, color0, chain) && chain != []
    requires EndsBlack(c, color0, chain)
    requires |color| == |rank| == |c.states|
    requires forall s :: 0 <= s < |color| ==> color[s] == if s in chain then Black else color0[s]
    requires forall k :: 0 <= k < |chain| ==> rank[chain[k]] == done + |chain| - 1 - k
    requires forall s :: 0 <= s < |color| && s !in chain ==> rank[s] == rank0[s]
    ensures Ranked(c, color, rank, done + |chain|)
  {
    forall s | 0 <= s < |color| && color[s] == Black && Next(c, s).Some?
      ensures Next(c, s).value < |color| && color[Next(c, s).value] == Black && rank[Next(c, s).value] < rank[s]
    {
      if s in chain {
        var k: nat :| k < |chain| && chain[k] == s;
        if k < |chain| - 1 {
          assert Next(c, chain[k]) == Some(chain[k + 1]);
        }
      }
    }
  }

  /** One chain from a white state: closed into a cycle, or finished and blackened. */
  method TryChain(c: Chart, color0: seq<Color>, start: nat, ghost rank0: seq<nat>, ghost done: nat)
    returns (acyclic: bool, color: seq<Color>, ghost rank: seq<nat>, ghost done': nat)
    requires DefaultsResolved(c) && Ranked(c, color0, rank0, done) && Gray !in color0 && done == Count(color0, Black)
    requires start < |c.states| && color0[start] == White
    ensures !acyclic ==> HasDefaultCycle(c)
    ensures acyclic ==> Ranked(c, color, rank, done') && Gray !in color && done' == Count(color, Black)
    ensures acyclic ==> |color| == |color0| && color[start] == Black
    ensures acyclic ==> forall s :: 0 <= s < |color| && color0[s] == Black ==> color[s] == Black
  {
    var gray, chain, cycle := WalkChain(c, color0, start);
    if cycle.Some? { return false, color0, rank0, done; }
    GrayedKeepsRanks(c, color0, gray, chain, rank0, done);
    color, rank := Blacken(c, gray, chain, rank0, done);
    acyclic, done' := true, done + |chain|;
    assert chain[0] == start;
  }

  /** Accepts exactly the charts whose default edges contain no cycle; the walk always ends and
      every back edge is found on the current chain. */
  method ValidateDefaultGraph(c: Chart) returns (ok: bool, ghost rank: seq<nat>)
    requires DefaultsResolved(c)
    ensures ok <==> !HasDefaultCycle(c)
    ensures ok <==> DefaultsTerminate(c)
    ensures ok ==> IsRanking(c, rank)
  {
    var n := |c.states|;
    var color := seq(n, _ => White);
    rank := seq(n, _ => 0);
    ghost var done: nat := 0;
    CountAtMost(color, Black);
    var start := 0;
    while start < n
      invariant start <= n && Ranked(c, color, rank, done) && Gray !in color
      invariant done == Count(color, Black)
      invariant forall s :: 0 <= s < start ==> color[s] == Black
    {
      if color[start] == White {
        ok, color, rank, done := TryChain(c, color, start, rank, done);
        if !ok {
          if DefaultsTerminate(c) { RankingExcludesCycles(c); }
          return;
        }
      }
      start := start + 1;
    }
    AllBlackIsRanked(c, color, rank, done);
    ok := true;
    RankingExcludesCycles(c);
  }

  lemma AllBlackIsRanked(c: Chart, color: seq<Color>, rank: seq<nat>, done: nat)
    requires Ranked(c, color, rank, done) && done == Count(color, Black)
    requires forall s :: 0 <= s < |color| ==> color[s] == Black
    ensures IsRanking(c, rank)
  {
    CountAtMost(color, Black);
    forall s: nat | s < |c.states| ensures RankFalls(c, rank, s) { assert color[s] == Black; }
  }

  lemma GrayedKeepsRanks(c: Chart, color: seq<Color>, gray: seq<Color>, chain: seq<nat>, rank: seq<nat>, done: nat)
    requires Ranked(c, color, rank, done) && Gray !in color && |gray| == |color|
    requires forall s :: 0 <= s < |gray| ==> gray[s] == if s in chain then Gray else color[s]
    requires forall s :: s in chain ==> s < |color| && color[s] == White
    ensures Ranked(c, gray, rank, done)
    ensures Count(gray, Black) == Count(color, Black)
  {
    SameCount(color, gray, Black);
  }

  lemma {:induction false} SameCount(a: seq<Color>, b: seq<Color>, x: Color)
    requires |a| == |b| && forall s :: 0 <= s < |a| ==> (a[s] == x <==> b[s] == x)
    ensures Count(a, x) == Count(b, x)
  {
    if a != [] { SameCount(a[..|a| - 1], b[..|b| - 1], x); }
  }

  /** A state other than the root that declares nothing at all is rejected. */
  predicate IsEmptyState(s: State) {
    s.entries == [] && s.exits == [] && s.handlers == [] && s.children == [] && s.durings == 0
  }

  predicate StateAccepted(c: Chart, s: nat)
    requires s < |c.states|
  {
    TransitionsLast(c.states[s].handlers) && (c.states[s].parent.Some? ==> !IsEmptyState(c.states[s]))
  }

  /** The charts `validate` lets through. */
  ghost predicate Accepted(c: Chart) {
    && !HasDefaultCycle(c)
    && forall s: nat :: s < |c.states| ==> StateAccepted(c, s)
  }

  /** Three things are asked of a chart, and nothing else: no cycle of defaults; for each trigger of
      each state, at most one transition, declared last; and every state but the root declares an
      entry or exit action, a handler, a nested state or a during. */
  lemma AcceptedExactly(c: Chart)
    requires WellFormed(c)
    ensures Accepted(c) <==> (
      && !HasDefaultCycle(c)
      && (forall s: nat, i, j :: s < |c.states| && 0 <= i < j < |c.states[s].handlers| ==>
            c.states[s].handlers[i].trigger == c.states[s].handlers[j].trigger ==> c.states[s].handlers[i].kind.Action?)
      && (forall s: nat :: 0 < s < |c.states| ==>
            || c.states[s].entries != [] || c.states[s].exits != [] || c.states[s].handlers != []
            || c.states[s].children != [] || c.states[s].durings > 0))
  {
    forall s: nat | s < |c.states| ensures c.states[s].parent.Some? <==> s > 0 {
      if s > 0 { assert IsChild(c, s); }
    }
    if Accepted(c) {
      forall s: nat | 0 < s < |c.states|
        ensures
          || c.states[s].entries != [] || c.states[s].exits != [] || c.states[s].handlers != []
          || c.states[s].children != [] || c.states[s].durings > 0
      {
        assert StateAccepted(c, s);
      }
      forall s: nat, i, j | s < |c.states| && 0 <= i < j < |c.states[s].handlers|
        ensures c.states[s].handlers[i].trigger == c.states[s].handlers[j].trigger ==>
          c.states[s].handlers[i].kind.Action?
      {
        assert StateAccepted(c, s);
        assert InOrder(c.states[s].handlers, i, j);
      }
    }
  }

  method ValidateChart(c: Chart) returns (ok: bool)
    requires WellFormed(c)
    ensures ok <==> Accepted(c)
    ensures ok ==> DefaultsTerminate(c)
  {
    ghost var rank;
    forall s: nat | s < |c.states| ensures DefaultResolved(c, s) { assert StateOk(c, s); }
    ok, rank := ValidateDefaultGraph(c);
    if !ok { return; }
    var s := 0;
    while s < |c.states|
      invariant s <= |c.states|
      invariant forall k: nat :: k < s ==> StateAccepted(c, k)
    {
      var state := c.states[s];
      assert StateOk(c, s);
      if state.parent.Some? && IsEmptyState(state) {
        assert !StateAccepted(c, s);
        return false;
      }
      ok := ValidateHandlers(state.handlers);
      if !ok {
        assert !StateAccepted(c, s);
        return;
      }
      s := s + 1;
    }
  }
}
