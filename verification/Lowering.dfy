/** Building the state list and resolving names, in place. */
module Lowering {
  import opened Wrappers
  import opened Charts
  import opened Layouts
  import opened Interning
  import opened Drafts

  /** The handlers of which the first `h` have their slots filled. */
  function FilledTo(scope: Scope, was: seq<DraftHandler>, h: nat): seq<DraftHandler>
    requires h <= |was|
  {
    FillHandlers(scope, was[..h]) + was[h..]
  }

  /** The states with the timers of `hs` noted at `id`. */
  function WithTimers(states: seq<Draft>, id: nat, hs: seq<DraftHandler>): (r: seq<Draft>)
    requires id < |states|
    ensures |r| == |states|
  {
    states[id := states[id].(ownedTimers := TimersOf(Triggers(hs)))]
  }

  lemma WithNextTimer(states: seq<Draft>, id: nat, hs: seq<DraftHandler>, h: DraftHandler)
    requires id < |states|
    ensures var noted := WithTimers(states, id, hs);
      WithTimers(states, id, hs + [h]) == noted[id := noted[id].(ownedTimers :=
        if h.trigger.Duration? then Insert(noted[id].ownedTimers, h.trigger.timer) else noted[id].ownedTimers)]
  {
    NextTimer(hs, h);
  }

  lemma NoHandlers(names: Names, stateNames: set<string>, states: seq<Draft>, id: nat)
    requires id < |states| && states[id].ownedTimers == []
    ensures AreHandlers(names, stateNames, [], []) && AddAll(names, OfHandlers([], stateNames)) == names
    ensures WithTimers(states, id, []) == states
  {
    assert states[id := states[id]] == states;
  }

  lemma FilledEnds(scope: Scope, was: seq<DraftHandler>)
    ensures FilledTo(scope, was, 0) == was && FilledTo(scope, was, |was|) == FillHandlers(scope, was)
  {
    assert was[..|was|] == was;
  }

  lemma FillNext(scope: Scope, was: seq<DraftHandler>, h: nat)
    requires h < |was|
    ensures FilledTo(scope, was, h)[h] == was[h]
    ensures FilledTo(scope, was, h + 1) == FilledTo(scope, was, h)[h := was[h].(kind := FillKind(scope, was[h].kind))]
    ensures AreFound(scope, was[..h + 1]) <==> AreFound(scope, was[..h]) && IsFound(scope, was[h].kind)
  {
    hide FillKind, IsFound;
    assert was[..h + 1] == was[..h] + [was[h]];
  }

  /** The intermediate representation under construction. */
  class Ir {
    const name: string
    const stateNames: set<string>
    var states: seq<Draft>
    var names: Names

    constructor (name: string, stateNames: set<string>)
      ensures this.name == name && this.stateNames == stateNames
      ensures states == [] && names == NO_NAMES
    {
      this.name, this.stateNames := name, stateNames;
      states, names := [], NO_NAMES;
    }

    method AllocState(name: string, parent: Option<nat>, depth: nat) returns (id: nat)
      modifies this`states
      ensures id == |old(states)| && states == old(states) + [NewDraft(name, parent, depth)]
    {
      id := |states|;
      states := states + [NewDraft(name, parent, depth)];
    }

    method InternAction(x: string) returns (id: nat)
      modifies this`names
      ensures names == Add(old(names), OfAction(x)) && IsName(names.actions, id, x)
    {
      var p := Position(names.actions, x);
      if p.Some? { return p.value; }
      names := names.(actions := names.actions + [x]);
      id := |names.actions| - 1;
    }

    method InternEvent(x: string) returns (id: nat)
      modifies this`names
      ensures names == Add(old(names), OfEvent(x)) && IsName(names.events, id, x)
    {
      var p := Position(names.events, x);
      if p.Some? { return p.value; }
      names := names.(events := names.events + [x]);
      id := |names.events| - 1;
    }

    method InternDuration(key: DurationKey) returns (id: nat)
      modifies this`names
      ensures names == Add(old(names), OfDuration(key)) && IsName(names.durations, id, key)
    {
      var p := PositionOfKey(names.durations, key);
      if p.Some? { return p.value; }
      id := |names.durations|;
      names := names.(durations := names.durations + [key]);
    }

    method InternActions(xs: seq<string>) returns (ids: seq<nat>)
      modifies this`names
      ensures names == AddAll(old(names), Actions(xs))
      ensures AreNames(names.actions, ids, xs)
    {
      hide AddAll, Add, Actions, AreNames, Extends;
      ids := [];
      var i := 0;
      assert xs[..0] == [];
      NoNames(names, xs[..0]);
      while i < |xs|
        invariant i <= |xs|
        invariant names == AddAll(old(names), Actions(xs[..i]))
        invariant AreNames(names.actions, ids, xs[..i])
      {
        ghost var before := names;
        var id := InternAction(xs[i]);
        AddExtends(before, OfAction(xs[i]));
        NamesStay(before, names, ids, xs[..i]);
        NextName(names.actions, ids, id, xs, i);
        AddLast(old(names), Actions(xs[..i]), OfAction(xs[i]));
        ids := ids + [id];
        i := i + 1;
      }
      assert xs[..i] == xs;
    }

    /** Numbers a trigger and notes the timer it needs. */
    method LowerTrigger(id: nat, parsed: ParsedTrigger) returns (trigger: Trigger)
      requires id < |states|
      modifies this`names, this`states
      ensures names == Add(old(names), TriggerMention(parsed)) && IsTrigger(names, trigger, parsed)
      ensures var was := old(states[id]);
        states == old(states)[id := was.(ownedTimers :=
          if trigger.Duration? then Insert(was.ownedTimers, trigger.timer) else was.ownedTimers)]
    {
      match parsed
      case OnEvent(variant) =>
        var e := InternEvent(variant);
        trigger := Event(e);
      case OnDuration(key) =>
        var t := InternDuration(key);
        if t !in states[id].ownedTimers {
          states := states[id := states[id].(ownedTimers := states[id].ownedTimers + [t])];
        }
        trigger := Duration(t);
    }

    /** A state name makes a transition, anything else an action. */
    method ClassifyTarget(trigger: Trigger, parsed: ParsedHandler) returns (kind: Option<DraftKind>)
      requires IsTrigger(names, trigger, parsed.trigger)
      modifies this`names
      ensures kind.Some? <==> IsPlain(parsed, stateNames)
      ensures kind.Some? ==> parsed.target in stateNames ==>
        names == old(names) && kind.value == ToState(parsed.target, None)
      ensures kind.Some? ==> parsed.target !in stateNames ==>
        names == Add(old(names), OfAction(parsed.target)) && kind.value.Call?
        && IsName(names.actions, kind.value.action, parsed.target)
    {
      if parsed.target in stateNames {
        if trigger.Duration? && names.durations[trigger.timer].repeats { return None; }
        return Some(ToState(parsed.target, None));
      }
      var a := InternAction(parsed.target);
      kind := Some(Call(a));
    }

    method LowerHandler(id: nat, parsed: ParsedHandler, i: nat) returns (h: Option<DraftHandler>)
      requires id < |states|
      modifies this`names, this`states
      ensures h.Some? <==> IsPlain(parsed, stateNames)
      ensures h.Some? ==> names == AddAll(old(names), OfHandler(parsed, stateNames))
      ensures h.Some? ==> IsHandler(names, stateNames, h.value, parsed, i)
      ensures h.Some? ==> var was := old(states[id]);
        states == old(states)[id := was.(ownedTimers :=
          if h.value.trigger.Duration? then Insert(was.ownedTimers, h.value.trigger.timer) else was.ownedTimers)]
    {
      ghost var first := [TriggerMention(parsed.trigger)];
      var trigger := LowerTrigger(id, parsed.trigger);
      AddLast(old(names), [], TriggerMention(parsed.trigger));
      assert names == AddAll(old(names), first) by { assert [] + first == first; }
      AddLast(old(names), first, OfAction(parsed.target));
      var kind := ClassifyTarget(trigger, parsed);
      if kind.None? { return None; }
      h := Some(DraftHandler(trigger, kind.value, i));
    }

    method LowerHandlers(id: nat, parsed: seq<ParsedHandler>) returns (r: Option<seq<DraftHandler>>)
      requires id < |states| && states[id].ownedTimers == []
      modifies this`names, this`states
      ensures r.Some? <==> ArePlain(parsed, stateNames)
      ensures r.Some? ==> names == AddAll(old(names), OfHandlers(parsed, stateNames))
      ensures r.Some? ==> AreHandlers(names, stateNames, r.value, parsed)
      ensures r.Some? ==> states == WithTimers(old(states), id, r.value)
    {
      hide AreHandlers, OfHandlers, OfHandler, AddAll, IsHandler, IsPlain, WithTimers;
      var hs: seq<DraftHandler> := [];
      var i := 0;
      NoHandlers(names, stateNames, old(states), id);
      assert parsed[..0] == [];
      while i < |parsed|
        invariant i <= |parsed| && id < |states|
        invariant ArePlain(parsed[..i], stateNames)
        invariant names == AddAll(old(names), OfHandlers(parsed[..i], stateNames))
        invariant AreHandlers(names, stateNames, hs, parsed[..i])
        invariant states == WithTimers(old(states), id, hs)
      {
        ghost var before := names;
        var h := LowerHandler(id, parsed[i], i);
        if h.None? { return None; }
        AddAllExtends(before, OfHandler(parsed[i], stateNames));
        HandlersStay(before, names, stateNames, hs, parsed[..i]);
        AddAllSplit(old(names), OfHandlers(parsed[..i], stateNames), OfHandler(parsed[i], stateNames));
        WithNextTimer(old(states), id, hs, h.value);
        NextHandler(names, stateNames, hs, h.value, parsed, i);
        hs := hs + [h.value];
        i := i + 1;
      }
      assert parsed[..i] == parsed;
      r := Some(hs);
    }

    /** Entries, exits, handlers and durings of one state. */
    method LowerOwn(id: nat, body: Body) returns (ok: bool)
      requires id < |states| && states[id] == NewDraft(states[id].name, states[id].parent, states[id].depth)
      modifies this`names, this`states
      ensures ok <==> ArePlain(body.handlers, stateNames)
      ensures ok ==> (
        names == AddAll(old(names),
          Actions(body.entries) + Actions(body.exits) + OfHandlers(body.handlers, stateNames)))
      ensures ok ==> id < |states| && states == old(states)[id := states[id]]
      ensures ok ==>
        var was := old(states[id]);
        var own := Node(was.name, was.parent, was.depth, body.(defaultTarget := None), []);
        IsLowered(names, stateNames, states[id], own)
    {
      hide AddAll, Actions, OfHandlers, ArePlain, AreNames, AreHandlers, TimersOf, Triggers, Extends;
      ghost var names0 := names;
      var entries := InternActions(body.entries);
      ghost var names1 := names;
      var exits := InternActions(body.exits);
      ghost var names2 := names;
      AddAllSplit(names0, Actions(body.entries), Actions(body.exits));
      AddAllSplit(names0, Actions(body.entries) + Actions(body.exits), OfHandlers(body.handlers, stateNames));
      AddAllExtends(names1, Actions(body.exits));
      AddAllExtends(names2, OfHandlers(body.handlers, stateNames));
      states := states[id := states[id].(entries := entries)];
      states := states[id := states[id].(exits := exits)];
      var handlers := LowerHandlers(id, body.handlers);
      if handlers.None? { return false; }
      NamesStay(names1, names2, entries, body.entries);
      NamesStay(names2, names, entries, body.entries);
      NamesStay(names2, names, exits, body.exits);
      states := states[id := states[id].(handlers := handlers.value)];
      states := states[id := states[id].(durings := body.durings)];
      ok := true;
    }

    /** Lowers the body of the state allocated last. Fails exactly when some `every` timer leads
        to a state; otherwise its subtree is laid out from `id` on and nothing before it changes. */
    method LowerBody(id: nat, body: Body) returns (ok: bool)
      requires id + 1 == |states| && states[id] == NewDraft(states[id].name, states[id].parent, states[id].depth)
      modifies this`names, this`states
      ensures var was := old(states[id]); var nodes := Layout(StateDecl(was.name, body), was.parent, was.depth, id);
        && (ok <==> AllPlain(nodes, stateNames))
        && (ok ==> names == AddAll(old(names), OfBody(body, stateNames)))
        && (ok ==> IsGrown(names, stateNames, old(states)[..id], states, nodes))
      decreases body
    {
      hide Layout, LayoutAll, OfDecls, OfHandlers, AddAll, ArePlain, Kids, SizeAll;
      hide AreNames, AreHandlers, TimersOf, Triggers;
      ghost var was := states[id];
      ghost var nodes := Layout(StateDecl(was.name, body), was.parent, was.depth, id);
      ghost var below := LayoutAll(body.children, id, was.depth + 1, id + 1);
      assert nodes == [nodes[0]] + below by { LayoutRoot(StateDecl(was.name, body), was.parent, was.depth, id); }
      AllPlainSplit(nodes[0], below, stateNames);
      ok := LowerOwn(id, body);
      if !ok { return; }
      ghost var own, before := states[id], names;
      var kids := LowerChildren(id, body.children, states[id].depth + 1);
      if kids.None? { return false; }
      ghost var grown := states;
      states := states[id := states[id].(children := kids.value)];
      if body.defaultTarget.Some? {
        states := states[id := states[id].(defaultName := body.defaultTarget)];
      }
      AddAllExtends(before, OfDecls(body.children, stateNames));
      AddAllSplit(old(names), Actions(body.entries) + Actions(body.exits) + OfHandlers(body.handlers, stateNames),
        OfDecls(body.children, stateNames));
      ghost var first := own.(children := kids.value, defaultName := body.defaultTarget);
      CompleteOwn(before, stateNames, own, first, nodes[0]);
      GrowOne(before, stateNames, old(states)[..id], first, nodes[0]);
      assert states[id] == first && states[..id + 1] == old(states)[..id] + [first];
      assert states[id + 1..] == grown[id + 1..];
      GrowMore(before, names, stateNames, old(states)[..id], states[..id + 1], states, [nodes[0]], below);
    }

    /** The nested states, in declaration order; each one's subtree before the next. */
    method LowerChildren(id: nat, decls: seq<StateDecl>, depth: nat) returns (r: Option<seq<nat>>)
      requires id + 1 == |states|
      modifies this`names, this`states
      ensures r.Some? <==> AllPlain(LayoutAll(decls, id, depth, id + 1), stateNames)
      ensures r.Some? ==> r.value == Kids(decls, id + 1)
      ensures r.Some? ==> names == AddAll(old(names), OfDecls(decls, stateNames))
      ensures r.Some? ==> IsGrown(names, stateNames, old(states), states, LayoutAll(decls, id, depth, id + 1))
      decreases decls
    {
      hide Layout, LayoutAll, Kids, OfDecls, OfBody, AddAll, AllPlain, IsGrown, SizeAll;
      var kids: seq<nat> := [];
      var i := 0;
      NoDecls(id, depth, names, states, stateNames);
      assert decls[..0] == [];
      while i < |decls|
        invariant i <= |decls|
        invariant kids == Kids(decls[..i], id + 1)
        invariant AllPlain(LayoutAll(decls[..i], id, depth, id + 1), stateNames)
        invariant names == AddAll(old(names), OfDecls(decls[..i], stateNames))
        invariant IsGrown(names, stateNames, old(states), states, LayoutAll(decls[..i], id, depth, id + 1))
      {
        ghost var before, drafts := names, states;
        var child := decls[i];
        var kid := AllocState(child.name, Some(id), depth);
        kids := kids + [kid];
        NextDecl(decls, i, id, depth, id + 1, stateNames);
        ghost var done, below := LayoutAll(decls[..i], id, depth, id + 1), Layout(child, Some(id), depth, kid);
        GrownLength(before, stateNames, old(states), drafts, done);
        var lowered := LowerBody(kid, child.body);
        if !lowered {
          if AllPlain(LayoutAll(decls, id, depth, id + 1), stateNames) {
            ChildIsPlain(decls, i, id, depth, stateNames);
          }
          return None;
        }
        AddAllExtends(before, OfBody(child.body, stateNames));
        AddAllSplit(old(names), OfDecls(decls[..i], stateNames), OfBody(child.body, stateNames));
        assert (drafts + [NewDraft(child.name, Some(id), depth)])[..kid] == drafts;
        GrowMore(before, names, stateNames, old(states), drafts, states, done, below);
        AllPlainBoth(done, below, stateNames);
        i := i + 1;
      }
      assert decls[..i] == decls;
      r := Some(kids);
    }

    /** Later states overwrite earlier ones of the same name; the root is entered last. */
    method NameMap() returns (m: map<string, nat>)
      requires states != [] && states[0].parent == None
      ensures IsNameMap(m, Scope(NamesBy(states, DraftName), name))
    {
      m := map[];
      ghost var names := NamesBy(states, DraftName);
      var s := 0;
      while s < |states|
        invariant s <= |states|
        invariant MapsNames(m, names[..s])
      {
        ghost var before := m;
        if states[s].name != ROOT_NAME { m := m[states[s].name := s]; }
        MapsNext(before, m, names, s);
        s := s + 1;
      }
      assert names[..s] == names;
      ghost var declared := m;
      m := m[name := 0];
      forall x: string ensures Lookup(m, x) == StateNamed(Scope(names, name), x) {
        assert IsMapped(declared, names, x);
      }
    }

    /** Fills one handler's slot, if it is open. */
    method ResolveHandler(s: nat, h: nat, m: map<string, nat>, ghost scope: Scope) returns (ok: bool)
      requires s < |states| && h < |states[s].handlers| && IsNameMap(m, scope)
      modifies this`states
      ensures ok <==> IsFound(scope, old(states[s]).handlers[h].kind)
      ensures ok ==>
        var was := old(states[s]);
        var filled := was.handlers[h].(kind := FillKind(scope, was.handlers[h].kind));
        states == old(states)[s := was.(handlers := was.handlers[h := filled])]
    {
      var handler := states[s].handlers[h];
      if IsOpen(handler.kind) {
        var target := handler.kind.target;
        assert Lookup(m, target) == StateNamed(scope, target);
        if target !in m { return false; }
        var filled := handler.(kind := ToState(target, Some(m[target])));
        states := states[s := states[s].(handlers := states[s].handlers[h := filled])];
      } else {
        assert states[s].handlers[h := handler] == states[s].handlers;
        assert states[s := states[s]] == states;
      }
      ok := true;
    }

    method ResolveHandlers(s: nat, m: map<string, nat>, ghost scope: Scope) returns (ok: bool)
      requires s < |states| && IsNameMap(m, scope)
      modifies this`states
      ensures ok <==> AreFound(scope, old(states[s]).handlers)
      ensures ok ==>
        var was := old(states[s]);
        states == old(states)[s := was.(handlers := FillHandlers(scope, was.handlers))]
    {
      hide FillKind, IsFound, IsNameMap, FilledTo;
      ghost var was := states[s].handlers;
      FilledEnds(scope, was);
      assert states[s := states[s]] == states;
      var h := 0;
      while h < |states[s].handlers|
        invariant |states| == |old(states)| && h <= |was| && |states[s].handlers| == |was|
        invariant AreFound(scope, was[..h])
        invariant states[s].handlers == FilledTo(scope, was, h)
        invariant states == old(states)[s := old(states[s]).(handlers := states[s].handlers)]
      {
        FillNext(scope, was, h);
        var found := ResolveHandler(s, h, m, scope);
        if !found { return false; }
        h := h + 1;
      }
      assert was[..h] == was;
      ok := true;
    }

    /** Fills in transition targets, then default targets. Fails exactly when a name is unknown. */
    method ResolveTransitions() returns (ok: bool)
      requires states != [] && states[0].parent == None
      modifies this`states
      ensures ok <==> TargetsFound(Scope(NamesBy(old(states), DraftName), name), old(states))
      ensures ok ==> IsFilled(Scope(NamesBy(old(states), DraftName), name), old(states), states)
    {
      hide AreFound, DefaultIsFound, FillDefault, FillHandlers, IsNameMap;
      ghost var scope := Scope(NamesBy(states, DraftName), name);
      ghost var was := states;
      var m := NameMap();
      var n := |states|;
      var s := 0;
      while s < n
        invariant s <= n == |states| == |was|
        invariant forall k :: 0 <= k < s ==> AreFound(scope, was[k].handlers)
        invariant forall k :: 0 <= k < s ==> states[k] == was[k].(handlers := FillHandlers(scope, was[k].handlers))
        invariant states[s..] == was[s..]
      {
        assert states[s] == was[s] by { assert states[s..][0] == was[s..][0]; }
        ok := ResolveHandlers(s, m, scope);
        if !ok { return; }
        s := s + 1;
      }
      ok := ResolveDefaults(m, scope);
    }

    method ResolveDefaults(m: map<string, nat>, ghost scope: Scope) returns (ok: bool)
      requires IsNameMap(m, scope)
      modifies this`states
      ensures ok <==> forall s :: 0 <= s < |old(states)| ==> DefaultIsFound(scope, old(states)[s].defaultName)
      ensures ok ==> |states| == |old(states)|
      ensures ok ==> forall s :: 0 <= s < |states| ==> states[s] == FillDefault(scope, old(states)[s])
    {
      ghost var was := states;
      var s := 0;
      while s < |states|
        invariant s <= |states| == |was|
        invariant forall k :: 0 <= k < s ==> DefaultIsFound(scope, was[k].defaultName)
        invariant forall k :: 0 <= k < s ==> states[k] == FillDefault(scope, was[k])
        invariant forall k :: s <= k < |was| ==> states[k] == was[k]
      {
        if states[s].defaultName.Some? {
          var target := states[s].defaultName.value;
          assert Lookup(m, target) == StateNamed(scope, target);
          if target !in m { return false; }
          states := states[s := states[s].(defaultTarget := Some(m[target]))];
        }
        s := s + 1;
      }
      ok := true;
    }

    method HasUniqueNames() returns (ok: bool)
      ensures ok <==> UniqueNames(NamesBy(states, DraftName))
      ensures ok <==> forall i, j :: 0 <= i < j < |states| && states[i].name == states[j].name ==>
        states[i].name == "__Root"
    {
      ghost var names := NamesBy(states, DraftName);
      var seen: set<string> := {};
      var s := 0;
      while s < |states|
        invariant s <= |states|
        invariant forall x :: x in seen <==> x != ROOT_NAME && x in names[..s]
        invariant UniqueNames(names[..s])
      {
        if states[s].name != ROOT_NAME {
          if states[s].name in seen {
            ghost var k :| 0 <= k < s && names[..s][k] == states[s].name;
            assert names[k] == names[s];
            return false;
          }
          seen := seen + {states[s].name};
        }
        assert names[..s + 1] == names[..s] + [names[s]];
        s := s + 1;
      }
      assert names[..s] == names;
      ok := true;
    }
  }
}
