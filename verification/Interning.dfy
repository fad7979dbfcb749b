/** The tables that number actions, events and durations in the order lowering meets them. */
module Interning {
  import opened Wrappers
  import opened Layouts

  datatype Names = Names(actions: seq<string>, events: seq<string>, durations: seq<DurationKey>)

  datatype Mention = OfAction(name: string) | OfEvent(variant: string) | OfDuration(key: DurationKey)

  const NO_NAMES: Names := Names([], [], [])

  function Insert<T(==)>(table: seq<T>, x: T): seq<T> {
    if x in table then table else table + [x]
  }

  function Add(names: Names, mention: Mention): Names {
    match mention
    case OfAction(x) => names.(actions := Insert(names.actions, x))
    case OfEvent(x) => names.(events := Insert(names.events, x))
    case OfDuration(x) => names.(durations := Insert(names.durations, x))
  }

  function AddAll(names: Names, mentions: seq<Mention>): Names {
    if mentions == [] then names
    else Add(AddAll(names, mentions[..|mentions| - 1]), mentions[|mentions| - 1])
  }

  lemma {:induction false} AddAllSplit(names: Names, a: seq<Mention>, b: seq<Mention>)
    ensures AddAll(names, a + b) == AddAll(AddAll(names, a), b)
    decreases b
  {
    if b == [] {
      assert a + b == a;
    } else {
      var front := b[..|b| - 1];
      AddAllSplit(names, a, front);
      assert (a + b)[..|a + b| - 1] == a + front;
    }
  }

  lemma AddLast(names: Names, mentions: seq<Mention>, mention: Mention)
    ensures AddAll(names, mentions + [mention]) == Add(AddAll(names, mentions), mention)
  {
    assert (mentions + [mention])[..|mentions|] == mentions;
  }

  predicate Extends(before: Names, after: Names) {
    before.actions <= after.actions && before.events <= after.events && before.durations <= after.durations
  }

  lemma AddExtends(names: Names, mention: Mention)
    ensures Extends(names, Add(names, mention))
  {
  }

  lemma {:induction false} AddAllExtends(names: Names, mentions: seq<Mention>)
    ensures Extends(names, AddAll(names, mentions))
  {
    if mentions != [] { AddAllExtends(names, mentions[..|mentions| - 1]); }
  }

  predicate Knows(names: Names, mention: Mention) {
    match mention
    case OfAction(x) => x in names.actions
    case OfEvent(x) => x in names.events
    case OfDuration(x) => x in names.durations
  }

  predicate NoRepeats<T(==)>(table: seq<T>) {
    forall i, j :: 0 <= i < j < |table| ==> table[i] != table[j]
  }

  predicate Injective(names: Names) {
    NoRepeats(names.actions) && NoRepeats(names.events) && NoRepeats(names.durations)
  }

  /** Nothing is numbered twice, and exactly what is mentioned is numbered. */
  lemma {:induction false} TablesHoldTheMentions(mentions: seq<Mention>, x: Mention)
    ensures Injective(AddAll(NO_NAMES, mentions))
    ensures Knows(AddAll(NO_NAMES, mentions), x) <==> x in mentions
  {
    if mentions != [] {
      var front := mentions[..|mentions| - 1];
      TablesHoldTheMentions(front, x);
      assert mentions == front + [mentions[|mentions| - 1]];
    }
  }

  /** `id` stands for `x`. */
  predicate IsName<T(==)>(table: seq<T>, id: nat, x: T) {
    id < |table| && table[id] == x
  }

  /** The text two durations are compared by. */
  function FullKey(key: DurationKey): string {
    key.text + ":" + if key.repeats then "true" else "false"
  }

  /** The text tells durations apart exactly as their expression and repetition do. */
  lemma FullKeyIsInjective(a: DurationKey, b: DurationKey)
    ensures FullKey(a) == FullKey(b) <==> a == b
  {
    if FullKey(a) == FullKey(b) {
      var n := |FullKey(a)|;
      assert FullKey(a)[n - 2] == if a.repeats then 'u' else 's';
      assert FullKey(b)[n - 2] == if b.repeats then 'u' else 's';
      assert a.text == FullKey(a)[..|a.text|] && b.text == FullKey(b)[..|b.text|];
    }
  }

  method PositionOfKey(table: seq<DurationKey>, key: DurationKey) returns (r: Option<nat>)
    ensures r.Some? <==> key in table
    ensures r.Some? ==> IsName(table, r.value, key) && key !in table[..r.value]
  {
    var i := 0;
    while i < |table|
      invariant i <= |table| && key !in table[..i]
    {
      FullKeyIsInjective(table[i], key);
      if FullKey(table[i]) == FullKey(key) { return Some(i); }
      i := i + 1;
    }
    r := None;
  }

  function Actions(names: seq<string>): (r: seq<Mention>)
    ensures |r| == |names|
  {
    if names == [] then [] else Actions(names[..|names| - 1]) + [OfAction(names[|names| - 1])]
  }

  function TriggerMention(trigger: ParsedTrigger): Mention {
    match trigger
    case OnEvent(variant) => OfEvent(variant)
    case OnDuration(key) => OfDuration(key)
  }

  /** A handler's trigger, then its target unless that is a state. */
  function OfHandler(h: ParsedHandler, states: set<string>): seq<Mention> {
    [TriggerMention(h.trigger)] + if h.target in states then [] else [OfAction(h.target)]
  }

  function OfHandlers(hs: seq<ParsedHandler>, states: set<string>): seq<Mention> {
    if hs == [] then [] else OfHandlers(hs[..|hs| - 1], states) + OfHandler(hs[|hs| - 1], states)
  }

  /** Everything a body mentions, in the order lowering meets it. */
  function OfBody(body: Body, states: set<string>): seq<Mention> {
    Actions(body.entries) + Actions(body.exits) + OfHandlers(body.handlers, states)
    + OfDecls(body.children, states)
  }

  function OfDecls(decls: seq<StateDecl>, states: set<string>): seq<Mention> {
    if decls == [] then [] else OfDecls(Front(decls), states) + OfBody(Final(decls).body, states)
  }

  /** The names of all states declared at or below a list of declarations. */
  function Declared(decls: seq<StateDecl>): set<string> {
    if decls == [] then {}
    else Declared(Front(decls)) + {Final(decls).name} + Declared(Final(decls).body.children)
  }

  /** What `on(...) => X` may name as a state: any declared one, or the chart itself. */
  function StateNames(source: Source): set<string> {
    Declared(source.body.children) + {source.name}
  }

  /** The tables of a whole chart; the terminate event is numbered last. */
  function NamesOf(source: Source): Names {
    AddAll(NO_NAMES, OfBody(source.body, StateNames(source))
      + if source.terminate.Some? then [OfEvent(source.terminate.value)] else [])
  }

  predicate NamedIn(nodes: seq<Node>, x: string) {
    exists j :: 0 <= j < |nodes| && nodes[j].name == x
  }

  lemma {:induction false} DeclaredAreLaidOut(decls: seq<StateDecl>, parent: nat, depth: nat, at: nat, x: string)
    ensures x in Declared(decls) <==> NamedIn(LayoutAll(decls, parent, depth, at), x)
    decreases decls
  {
    if decls != [] {
      hide Layout;
      hide NamedIn;
      var n := SizeAll(Front(decls));
      var left := LayoutAll(Front(decls), parent, depth, at);
      var right := Layout(Final(decls), Some(parent), depth, at + n);
      DeclaredAreLaidOut(Front(decls), parent, depth, at, x);
      DeclaredBelow(Final(decls), parent, depth, at + n, x);
      NamedInEither(left, right, x);
    } else {
      assert LayoutAll(decls, parent, depth, at) == [];
    }
  }

  lemma {:induction false} DeclaredBelow(decl: StateDecl, parent: nat, depth: nat, at: nat, x: string)
    ensures NamedIn(Layout(decl, Some(parent), depth, at), x) <==> x == decl.name || x in Declared(decl.body.children)
    decreases decl, 0
  {
    var below := LayoutAll(decl.body.children, at, depth + 1, at + 1);
    var root := Layout(decl, Some(parent), depth, at)[..1];
    DeclaredAreLaidOut(decl.body.children, at, depth + 1, at + 1, x);
    assert Layout(decl, Some(parent), depth, at) == root + below;
    NamedInEither(root, below, x);
    assert NamedIn(root, x) <==> root[0].name == x;
  }

  lemma NamedInEither(a: seq<Node>, b: seq<Node>, x: string)
    ensures NamedIn(a + b, x) <==> NamedIn(a, x) || NamedIn(b, x)
  {
    if NamedIn(a, x) {
      var j :| 0 <= j < |a| && a[j].name == x;
      assert (a + b)[j].name == x;
    }
    if NamedIn(b, x) {
      var j :| 0 <= j < |b| && b[j].name == x;
      assert (a + b)[|a| + j].name == x;
    }
  }
}
