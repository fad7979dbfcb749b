/** Whole runs against the small steps: the interpreter's run is the only one there is. */
module Transcripts {
  import opened Wrappers
  import opened Charts
  import opened Tree
  import opened Handlers
  import opened Timers
  import opened Dispatch
  import opened Trace
  import opened Reference
  import opened TimerFacts
  import opened Keeps
  import opened Runs
  import opened Theorems
  import opened Observe
  import opened Nesting
  import opened SmallSteps
  import opened Playing

  predicate OwnersInChart(c: Chart, ts: seq<TimerEntry>) {
    forall i :: 0 <= i < |ts| ==> ts[i].state < |c.states|
  }

  lemma FromHere<C, E>(env: Env<C, E>, journal: seq<TraceEvent>, p: Spot<C, E>)
    requires IsTree(env.chart)
    ensures Reaches(env, Base(journal, p), journal, p)
  {
    assert journal[|journal|..] == [];
  }

  /** A step, seen in small steps: what the call makes due, then the entries it adds, and rest. */
  lemma StepPlays<C, E>(env: Env<C, E>, m: Config<C, E>, d: nat, event: Option<E>) returns (event': Option<E>)
    requires Ready(env.chart) && Resting(env, m) && OwnersInChart(env.chart, m.timers)
    ensures var m', q := Step(env, m, d).0, Obey(env, At(m, [], event), Advance(d));
      q.Some? && On(env, Base(m.journal, q.value), m', [], event')
  {
    hide Reaches, FireTimer, Receive, Start, Decremented, NextExpired;
    var q := Obey(env, At(m, [], event), Advance(d)).value;
    var b := Base(m.journal, q);
    FromHere(env, m.journal, q);
    if m.terminated { return event; }
    if m.path == [] {
      StartPlays(env, b, m);
      return None;
    }
    var now := m.(timers := Decremented(m.timers, d));
    assert Depths(env.chart) == StateDepths(env.chart);
    match NextExpired(now.timers, Depths(env.chart)) {
      case Some(i) =>
        FireTimerPlays(env, b, now, i);
        event' := None;
      case None =>
        if m.queue == [] { return None; }
        ReceivePlays(env, b, now);
        event' := Some(m.queue[0]);
    }
  }

  lemma CallPlays<C, E>(env: Env<C, E>, m: Config<C, E>, input: Input<E>, event: Option<E>) returns (event': Option<E>)
    requires Ready(env.chart) && Resting(env, m) && OwnersInChart(env.chart, m.timers)
    ensures var m', q := Apply(env, m, input), Obey(env, At(m, [], event), input);
      q.Some? && On(env, Base(m.journal, q.value), m', [], event')
  {
    hide Reaches, Step;
    match input {
      case Advance(d) => event' := StepPlays(env, m, d, event);
      case _ =>
        FromHere(env, m.journal, Obey(env, At(m, [], event), input).value);
        event' := event;
    }
  }

  /** The calls of a run, each followed by the entries it added. */
  function Transcript<C, E>(env: Env<C, E>, ctx: C, inputs: seq<Input<E>>): seq<Mark<E>>
    requires Ready(env.chart)
    decreases |inputs|
  {
    if inputs == [] then []
    else
      var before, input := inputs[..|inputs| - 1], inputs[|inputs| - 1];
      var m := Run(env, ctx, before);
      Transcript(env, ctx, before) + [Call(input)] + ShownAll(Added(m, Apply(env, m, input)))
  }

  /** The journal entries of a transcript. */
  function Entries<E>(marks: seq<Mark<E>>): seq<TraceEvent> {
    if marks == [] then []
    else (if marks[0].Shown? then [marks[0].entry] else []) + Entries(marks[1..])
  }

  lemma {:induction false} SplitCalls<E>(a: seq<Mark<E>>, b: seq<Mark<E>>)
    ensures Calls(a + b) == Calls(a) + Calls(b)
    decreases |a|
  {
    if a == [] {
      assert a + b == b;
    } else {
      var first := if a[0].Call? then [a[0].input] else [];
      assert (a + b)[1..] == a[1..] + b;
      SplitCalls(a[1..], b);
      assert Calls(a + b) == first + (Calls(a[1..]) + Calls(b));
      Assoc(first, Calls(a[1..]), Calls(b));
    }
  }

  lemma {:induction false} SplitEntries<E>(a: seq<Mark<E>>, b: seq<Mark<E>>)
    ensures Entries(a + b) == Entries(a) + Entries(b)
    decreases |a|
  {
    if a == [] {
      assert a + b == b;
    } else {
      var first := if a[0].Shown? then [a[0].entry] else [];
      assert (a + b)[1..] == a[1..] + b;
      SplitEntries(a[1..], b);
      assert Entries(a + b) == first + (Entries(a[1..]) + Entries(b));
      Assoc(first, Entries(a[1..]), Entries(b));
    }
  }

  lemma {:induction false} MarksOfShown<E>(es: seq<TraceEvent>)
    ensures Calls(ShownAll<E>(es)) == [] && Entries(ShownAll<E>(es)) == es
    decreases |es|
  {
    if es != [] {
      assert ShownAll<E>(es)[1..] == ShownAll<E>(es[1..]);
      MarksOfShown<E>(es[1..]);
    }
  }

  /** What a resting moment of the small steps and a configuration have in common. */
  ghost predicate Agrees<C, E>(p: Spot<C, E>, m: Config<C, E>) {
    && IsResting(p) && p.ctx == m.ctx && p.path == m.path && p.queue == m.queue
    && p.timers == m.timers && p.ended == m.terminated && p.overflow == m.overflow
  }

  /** The transcript of a run plays by the small steps, to the very configuration the run is in. */
  lemma {:induction false} RunPlays<C, E>(env: Env<C, E>, ctx: C, inputs: seq<Input<E>>) returns (event: Option<E>)
    requires Ready(env.chart)
    ensures PlayAll(env, Begin(ctx), Transcript(env, ctx, inputs)) == Some(At(Run(env, ctx, inputs), [], event))
    ensures Calls(Transcript(env, ctx, inputs)) == inputs
    ensures Entries(Transcript(env, ctx, inputs)) == Run(env, ctx, inputs).journal
    decreases |inputs|
  {
    hide Play, Apply, PlayAll, Calls, Entries, On, Obey;
    event := None;
    if inputs == [] {
      EmptyRunPlays(env, ctx);
    } else {
      hide Transcript;
      var before, input := inputs[..|inputs| - 1], inputs[|inputs| - 1];
      var m := Run(env, ctx, before);
      event := RunPlays(env, ctx, before);
      RunOwners(env, ctx, before);
      var was := event;
      event := CallPlays(env, m, input, was);
      OneCallMore(env, ctx, before, input, was, event);
      assert before + [input] == inputs;
    }
  }

  lemma EmptyRunPlays<C, E>(env: Env<C, E>, ctx: C)
    requires Ready(env.chart)
    ensures PlayAll(env, Begin(ctx), Transcript(env, ctx, [])) == Some(At(Run(env, ctx, []), [], None))
    ensures Calls(Transcript(env, ctx, [])) == [] && Entries(Transcript(env, ctx, [])) == Run(env, ctx, []).journal
  {
  }

  lemma OneCallMore<C, E>(env: Env<C, E>, ctx: C, before: seq<Input<E>>, input: Input<E>, was: Option<E>,
      event: Option<E>)
    requires Ready(env.chart)
    requires PlayAll(env, Begin(ctx), Transcript(env, ctx, before)) == Some(At(Run(env, ctx, before), [], was))
    requires Calls(Transcript(env, ctx, before)) == before
    requires Entries(Transcript(env, ctx, before)) == Run(env, ctx, before).journal
    requires var m := Run(env, ctx, before); var q := Obey(env, At(m, [], was), input);
      q.Some? && On(env, Base(m.journal, q.value), Apply(env, m, input), [], event)
    ensures var inputs := before + [input];
      && PlayAll(env, Begin(ctx), Transcript(env, ctx, inputs)) == Some(At(Run(env, ctx, inputs), [], event))
      && Calls(Transcript(env, ctx, inputs)) == before + [input]
      && Entries(Transcript(env, ctx, inputs)) == Run(env, ctx, inputs).journal
  {
    hide Obey, Apply, PlayAll, On, Calls, Entries, Added, ApplyAll;
    var m, inputs := Run(env, ctx, before), before + [input];
    var m' := Apply(env, m, input);
    OnAdds(env, m, m', Obey(env, At(m, [], was), input).value, event);
    var first, shown := Transcript(env, ctx, before), ShownAll<E>(Added(m, m'));
    assert inputs[..|inputs| - 1] == before;
    RunSnoc(env, ctx, before, input);
    PlayAppend(env, Begin(ctx), first, [Call(input)]);
    PlayOne(env, At(m, [], was), Call(input));
    PlayAppend(env, Begin(ctx), first + [Call(input)], shown);
    SplitCalls(first, [Call(input)]);
    SplitCalls(first + [Call(input)], shown);
    SplitEntries(first, [Call(input)]);
    SplitEntries(first + [Call(input)], shown);
    OneCall(input);
    MarksOfShown<E>(Added(m, m'));
    NoMoves(before + [input]);
  }

  lemma OnAdds<C, E>(env: Env<C, E>, m: Config<C, E>, m': Config<C, E>, q: Spot<C, E>, event: Option<E>)
    requires IsTree(env.chart) && On(env, Base(m.journal, q), m', [], event)
    ensures PlayAll(env, q, ShownAll(Added(m, m'))) == Some(At(m', [], event))
    ensures m'.journal == m.journal + Added(m, m')
  {
    hide PlayAll;
  }

  lemma OneCall<E>(input: Input<E>)
    ensures Calls([Call(input)]) == [input] && Entries([Call(input)]) == []
  {
    var one: seq<Mark<E>> := [Call(input)];
    assert one[1..] == [];
  }

  lemma RunOwners<C, E>(env: Env<C, E>, ctx: C, inputs: seq<Input<E>>)
    requires Ready(env.chart)
    ensures OwnersInChart(env.chart, Run(env, ctx, inputs).timers)
  {
    hide ReadLog, RunLog, ApplyAll, ClockOk;
    RunReads(env, ctx, inputs, 0, 0);
    var m := Run(env, ctx, inputs);
    forall i | 0 <= i < |m.timers| ensures m.timers[i].state < |env.chart.states| {
      assert EntryOwned(env.chart, m.timers, m.path, i);
    }
  }

  /** The small steps leave no choice: any transcript with these calls that comes to rest is the
      run's. Its journal, context, active path, queue, timers and flags are those of the run. */
  lemma RunIsTheOnlyTranscript<C, E>(env: Env<C, E>, ctx: C, inputs: seq<Input<E>>, marks: seq<Mark<E>>)
    requires Ready(env.chart) && Calls(marks) == inputs
    requires PlayAll(env, Begin(ctx), marks).Some? && IsResting(PlayAll(env, Begin(ctx), marks).value)
    ensures marks == Transcript(env, ctx, inputs) && Entries(marks) == Run(env, ctx, inputs).journal
    ensures Agrees(PlayAll(env, Begin(ctx), marks).value, Run(env, ctx, inputs))
  {
    hide PlayAll;
    var event := RunPlays(env, ctx, inputs);
    TranscriptIsUnique(env, Begin(ctx), marks, Transcript(env, ctx, inputs));
  }

  // ----- scripts, read off the journal -----

  predicate IsEmit(e: TraceEvent) {
    e.EmitQueued? || e.EmitFailed?
  }

  /** A journal without the outcomes of emits. */
  function NoEmits(es: seq<TraceEvent>): seq<TraceEvent> {
    if es == [] then []
    else (if IsEmit(es[0]) then [] else [es[0]]) + NoEmits(es[1..])
  }

  /** Entries after which nothing new is due. */
  predicate AddsNothing(e: TraceEvent) {
    || e.ActionInvoked? || e.TimerArmed? || e.DuringStarted? || e.DuringCancelled? || e.TimerCancelled?
    || e.EventDelivered? || e.EventDropped? || e.Entered? || e.Exited?
  }

  predicate IsScript(es: seq<TraceEvent>) {
    forall i :: 0 <= i < |es| - 1 ==> AddsNothing(es[i])
  }

  /** What is due comes, in order, with nothing but emits in between, before the machine rests. */
  lemma {:induction false} DueComesNext<C, E>(env: Env<C, E>, p: Spot<C, E>, marks: seq<Mark<E>>,
      script: seq<TraceEvent>, rest: seq<TraceEvent>)
    requires IsTree(env.chart) && p.due == script + rest && IsScript(script)
    requires forall i :: 0 <= i < |script| ==> !IsEmit(script[i])
    requires PlayAll(env, p, marks).Some? && IsResting(PlayAll(env, p, marks).value)
    ensures script <= NoEmits(Entries(marks))
    decreases |marks|
  {
    hide Play, Follow, NoEmits, Entries;
    if script != [] {
      NoEmitsFirst(marks);
      var q := Play(env, p, marks[0]).value;
      OneMark(env, p, marks[0]);
      if p.run.Some? {
        DueComesNext(env, q, marks[1..], script, rest);
      } else {
        assert p.due[1..] == script[1..] + rest;
        if |script| == 1 {
          assert script == [script[0]];
        } else {
          DueComesNext(env, q, marks[1..], script[1..], rest);
          assert script == [script[0]] + script[1..];
        }
      }
    }
  }

  lemma NoEmitsFirst<E>(marks: seq<Mark<E>>)
    ensures marks != [] && marks[0].Shown? ==>
      NoEmits(Entries(marks)) ==
        (if IsEmit(marks[0].entry) then [] else [marks[0].entry]) + NoEmits(Entries(marks[1..]))
  {
    if marks != [] && marks[0].Shown? {
      assert ([marks[0].entry] + Entries(marks[1..]))[1..] == Entries(marks[1..]);
    }
  }

  lemma OneMark<C, E>(env: Env<C, E>, p: Spot<C, E>, mark: Mark<E>)
    requires IsTree(env.chart) && p.due != [] && Play(env, p, mark).Some?
    ensures mark.Shown?
    ensures var q := Play(env, p, mark).value;
      if p.run.Some? then q.due == p.due && IsEmit(mark.entry)
      else mark.entry == p.due[0] && (AddsNothing(mark.entry) ==> q.due == p.due[1..])
  {
  }

  /** Where in the small steps entry `i` of a transcript comes, and what remains after it. */
  lemma {:induction false} FindEntry<C, E>(env: Env<C, E>, p: Spot<C, E>, marks: seq<Mark<E>>, i: nat)
    returns (at: Spot<C, E>, after: seq<Mark<E>>)
    requires IsTree(env.chart) && PlayAll(env, p, marks).Some? && i < |Entries(marks)|
    ensures var q := Follow(env, at, Entries(marks)[i]);
      q.Some? && PlayAll(env, q.value, after) == PlayAll(env, p, marks)
    ensures Entries(after) == Entries(marks)[i + 1..]
    decreases |marks|
  {
    hide Play, Follow;
    var q := Play(env, p, marks[0]).value;
    if marks[0].Shown? && i == 0 {
      ShownIsFollowed(env, p, marks[0].entry);
      return p, marks[1..];
    }
    var k := if marks[0].Shown? then i - 1 else i;
    at, after := FindEntry(env, q, marks[1..], k);
    assert Entries(marks)[i + 1..] == Entries(marks[1..])[k + 1..];
  }

  lemma ShownIsFollowed<C, E>(env: Env<C, E>, p: Spot<C, E>, e: TraceEvent)
    requires IsTree(env.chart)
    ensures Play(env, p, Shown(e)) == Follow(env, p, e)
  {
  }

  /** After entry `i` of a run's journal, whatever it has just made due comes next. */
  lemma EntryIsFollowed<C, E>(env: Env<C, E>, ctx: C, inputs: seq<Input<E>>, i: nat, script: seq<TraceEvent>)
    requires Ready(env.chart) && i < |Run(env, ctx, inputs).journal|
    requires var e := Run(env, ctx, inputs).journal[i];
      forall p: Spot<C, E> :: Makes(env, p, e, script)
    requires IsScript(script) && forall j :: 0 <= j < |script| ==> !IsEmit(script[j])
    ensures script <= NoEmits(Run(env, ctx, inputs).journal[i + 1..])
  {
    hide Follow, PlayAll;
    var event := RunPlays(env, ctx, inputs);
    var at, after := FindEntry(env, Begin(ctx), Transcript(env, ctx, inputs), i);
    var e := Run(env, ctx, inputs).journal[i];
    assert Makes(env, at, e, script);
    var q := Follow(env, at, e).value;
    var rest := q.due[|script|..];
    assert q.due == script + rest;
    DueComesNext(env, q, after, script, rest);
  }

  /** Wherever `e` may come, it makes `script` due first of all. */
  predicate Makes<C, E>(env: Env<C, E>, p: Spot<C, E>, e: TraceEvent, script: seq<TraceEvent>)
    requires IsTree(env.chart)
  {
    var q := Follow(env, p, e);
    q.Some? ==> script <= q.value.due
  }

  lemma {:induction false} ReplayInChart(c: Chart, journal: seq<TraceEvent>)
    requires Replay(c, journal).Some?
    ensures PathInChart(c, Replay(c, journal).value.active)
  {
    if journal != [] {
      ReplayInChart(c, journal[..|journal| - 1]);
      ScanInChart(c, Replay(c, journal[..|journal| - 1]).value, Last(journal));
    }
  }

  lemma ScanInChart(c: Chart, st: Scan, e: TraceEvent)
    requires PathInChart(c, st.active) && ScanEvent(c, st, e).Some?
    ensures PathInChart(c, ScanEvent(c, st, e).value.active)
  {
  }

  lemma StatesInChart<C, E>(env: Env<C, E>, ctx: C, inputs: seq<Input<E>>, i: nat)
    requires Ready(env.chart) && i < |Run(env, ctx, inputs).journal|
    ensures var e := Run(env, ctx, inputs).journal[i];
      (e.EnterBegan? ==> e.state < |env.chart.states|) && (e.ExitBegan? ==> e.state < |env.chart.states|)
  {
    hide ApplyAll, Replay, EnterPlaced, ExitPlaced;
    var c, journal := env.chart, Run(env, ctx, inputs).journal;
    JournalReplaysToActivePath(env, ctx, inputs);
    ReplayNext(c, journal, i);
    ReplayInChart(c, journal[..i]);
  }

  lemma EnterScriptIsScript(c: Chart, s: nat)
    requires s < |c.states|
    ensures IsScript(EnterScript(c, s)) && forall j :: 0 <= j < |EnterScript(c, s)| ==> !IsEmit(EnterScript(c, s)[j])
  {
  }

  lemma ExitScriptIsScript(c: Chart, s: nat)
    requires s < |c.states|
    ensures IsScript(ExitScript(c, s)) && forall j :: 0 <= j < |ExitScript(c, s)| ==> !IsEmit(ExitScript(c, s)[j])
  {
  }

  /** The state's entry actions one by one, then its timers at full duration, then its durings, and
      then that it is entered. */
  predicate ShowsEntry(c: Chart, s: nat, shown: seq<TraceEvent>)
    requires s < |c.states|
  {
    var st := c.states[s];
    var a, b := |st.entries|, |st.entries| + |st.ownedTimers|;
    && |shown| > b + st.durings
    && (forall k :: 0 <= k < a ==> shown[k] == ActionInvoked(s, st.entries[k], EntryAction))
    && (forall k :: a <= k < b ==> shown[k] == TimerArmed(s, st.ownedTimers[k - a], FullTime(c, st.ownedTimers[k - a])))
    && (forall k :: b <= k < b + st.durings ==> shown[k] == DuringStarted(s, k - b))
    && shown[b + st.durings] == Entered(s)
  }

  /** The state's durings and timers cancelled, then its exit actions one by one, and then that it
      is exited. */
  predicate ShowsExit(c: Chart, s: nat, shown: seq<TraceEvent>)
    requires s < |c.states|
  {
    var st := c.states[s];
    var a, b := st.durings, st.durings + |st.ownedTimers|;
    && |shown| > b + |st.exits|
    && (forall k :: 0 <= k < a ==> shown[k] == DuringCancelled(s, k))
    && (forall k :: a <= k < b ==> shown[k] == TimerCancelled(s, st.ownedTimers[k - a]))
    && (forall k :: b <= k < b + |st.exits| ==> shown[k] == ActionInvoked(s, st.exits[k - b], ExitAction))
    && shown[b + |st.exits|] == Exited(s)
  }

  lemma EnterScriptShows(c: Chart, s: nat, shown: seq<TraceEvent>)
    requires s < |c.states| && EnterScript(c, s) <= shown
    ensures ShowsEntry(c, s, shown)
  {
    var script := EnterScript(c, s);
    assert forall k :: 0 <= k < |script| ==> shown[k] == script[k];
  }

  lemma ExitScriptShows(c: Chart, s: nat, shown: seq<TraceEvent>)
    requires s < |c.states| && ExitScript(c, s) <= shown
    ensures ShowsExit(c, s, shown)
  {
    var script := ExitScript(c, s);
    assert forall k :: 0 <= k < |script| ==> shown[k] == script[k];
  }

  /** From entry `at` on, what `s` declares for a trigger: its actions one by one, and at the end
      its transition, if it declares one. */
  predicate ShowsHandlers(c: Chart, path: seq<nat>, s: nat, trigger: Trigger, reason: Reason, shown: seq<TraceEvent>,
      at: nat)
    requires s < |c.states| && path != []
  {
    var kinds := Declared(c.states[s].handlers, trigger);
    && |shown| >= at + |kinds|
    && forall k :: 0 <= k < |kinds| ==>
         && (kinds[k].Action? ==> shown[at + k] == ActionInvoked(s, kinds[k].action, HandlerAction))
         && (kinds[k].Transition? ==> shown[at + k] == TransitionFired(Some(Last(path)), kinds[k].target, reason))
  }

  /** In every run's journal, once a state's entry begins, exactly its entry actions are invoked, in
      order; then exactly its timers are armed and its durings started; then it is entered. */
  lemma EntryRunsItsActions<C, E>(env: Env<C, E>, ctx: C, inputs: seq<Input<E>>, i: nat)
    requires Ready(env.chart) && i < |Run(env, ctx, inputs).journal| && Run(env, ctx, inputs).journal[i].EnterBegan?
    ensures var journal := Run(env, ctx, inputs).journal; var s := journal[i].state;
      s < |env.chart.states| && ShowsEntry(env.chart, s, NoEmits(journal[i + 1..]))
  {
    hide EnterScript, ExitScript, NoEmits, Makes, ApplyAll, ShowsEntry, ShowsExit;
    var journal := Run(env, ctx, inputs).journal;
    var s := journal[i].state;
    StatesInChart(env, ctx, inputs, i);
    forall p: Spot<C, E> ensures Makes(env, p, journal[i], EnterScript(env.chart, s)) {
      EnterMakes(env, p, s);
    }
    EnterScriptIsScript(env.chart, s);
    EntryIsFollowed(env, ctx, inputs, i, EnterScript(env.chart, s));
    EnterScriptShows(env.chart, s, NoEmits(journal[i + 1..]));
  }

  lemma EnterMakes<C, E>(env: Env<C, E>, p: Spot<C, E>, s: nat)
    requires IsTree(env.chart) && s < |env.chart.states|
    ensures Makes(env, p, EnterBegan(s), EnterScript(env.chart, s))
  {
    hide EnterScript;
  }

  /** Once a state's exit begins, its durings and timers are cancelled; then exactly its exit
      actions are invoked, in order; then it is exited. */
  lemma ExitRunsItsActions<C, E>(env: Env<C, E>, ctx: C, inputs: seq<Input<E>>, i: nat)
    requires Ready(env.chart) && i < |Run(env, ctx, inputs).journal| && Run(env, ctx, inputs).journal[i].ExitBegan?
    ensures var journal := Run(env, ctx, inputs).journal; var s := journal[i].state;
      s < |env.chart.states| && ShowsExit(env.chart, s, NoEmits(journal[i + 1..]))
  {
    hide EnterScript, ExitScript, NoEmits, Makes, ApplyAll, ShowsEntry, ShowsExit;
    var journal := Run(env, ctx, inputs).journal;
    var s := journal[i].state;
    StatesInChart(env, ctx, inputs, i);
    forall p: Spot<C, E> ensures Makes(env, p, journal[i], ExitScript(env.chart, s)) {
      ExitMakes(env, p, s);
    }
    ExitScriptIsScript(env.chart, s);
    EntryIsFollowed(env, ctx, inputs, i, ExitScript(env.chart, s));
    ExitScriptShows(env.chart, s, NoEmits(journal[i + 1..]));
  }

  lemma ExitMakes<C, E>(env: Env<C, E>, p: Spot<C, E>, s: nat)
    requires IsTree(env.chart) && s < |env.chart.states|
    ensures Makes(env, p, ExitBegan(s), ExitScript(env.chart, s))
  {
    hide ExitScript;
  }

  // ----- one step, on the chart's own data -----

  /** What a step adds to the journal begins with what the call has made due. */
  lemma StepShows<C, E>(env: Env<C, E>, ctx: C, inputs: seq<Input<E>>, d: nat, first: TraceEvent,
      script: seq<TraceEvent>)
    requires Ready(env.chart)
    requires var m := Run(env, ctx, inputs);
      forall event :: var q := Obey(env, At(m, [], event), Advance(d)); q.Some? && Begins(env, q.value, first, script)
    requires IsScript(script) && !IsEmit(first) && forall j :: 0 <= j < |script| ==> !IsEmit(script[j])
    ensures var m, m' := Run(env, ctx, inputs), Run(env, ctx, inputs + [Advance(d)]);
      m.journal <= m'.journal && [first] + script <= NoEmits(m'.journal[|m.journal|..])
  {
    hide PlayAll, Follow, Obey, Step;
    var m := Run(env, ctx, inputs);
    RunSnoc(env, ctx, inputs, Advance(d));
    RunOwners(env, ctx, inputs);
    var event := StepPlays(env, m, d, None);
    var q := Obey(env, At(m, [], None), Advance(d)).value;
    var added := Step(env, m, d).0.journal[|m.journal|..];
    var marks := ShownAll<E>(added);
    assert Begins(env, q, first, script);
    assert IsResting(PlayAll(env, q, marks).value);
    BeginsShows(env, q, marks, first, script);
    MarksOfShown<E>(added);
  }

  /** `first` is due, and makes `script` due. */
  predicate Begins<C, E>(env: Env<C, E>, p: Spot<C, E>, first: TraceEvent, script: seq<TraceEvent>)
    requires IsTree(env.chart)
  {
    p.run.None? && p.due == [first] && Makes(env, p, first, script)
  }

  lemma BeginsShows<C, E>(env: Env<C, E>, p: Spot<C, E>, marks: seq<Mark<E>>, first: TraceEvent,
      script: seq<TraceEvent>)
    requires IsTree(env.chart) && Begins(env, p, first, script)
    requires IsScript(script) && !IsEmit(first) && forall j :: 0 <= j < |script| ==> !IsEmit(script[j])
    requires PlayAll(env, p, marks).Some? && IsResting(PlayAll(env, p, marks).value)
    ensures [first] + script <= NoEmits(Entries(marks))
  {
    hide Play, Follow;
    OneMark(env, p, marks[0]);
    ShownIsFollowed(env, p, first);
    assert marks[0] == Shown(first);
    var q := Play(env, p, marks[0]).value;
    assert q.due == script + q.due[|script|..];
    DueComesNext(env, q, marks[1..], script, q.due[|script|..]);
  }

  /** State `s` handles event number `v`: one of its handlers is declared for it. */
  predicate HandlesNumber(c: Chart, s: nat, v: nat) {
    s < |c.states| && HasTrigger(c.states[s], Trigger.Event(v))
  }

  /** `path[k]` is the innermost active state that handles `v`. */
  predicate IsInnermost(c: Chart, path: seq<nat>, k: nat, v: nat) {
    && k < |path| && path[k] < |c.states| && HandlesNumber(c, path[k], v)
    && forall j :: k < j < |path| ==> !HandlesNumber(c, path[j], v)
  }

  lemma DeclaredIffHandled(c: Chart, s: nat, v: nat)
    ensures Handles(c, s, Trigger.Event(v)) <==> HandlesNumber(c, s, v)
  {
    if s < |c.states| {
      var at := DeclaredAt(c.states[s].handlers, Trigger.Event(v));
      if at != [] { assert c.states[s].handlers[at[0]].trigger == Trigger.Event(v); }
    }
  }

  lemma InnermostBubbles(c: Chart, path: seq<nat>, v: nat)
    ensures Bubble(c, path, Trigger.Event(v)) == None <==> forall k :: 0 <= k < |path| ==> !HandlesNumber(c, path[k], v)
    ensures forall k: nat :: IsInnermost(c, path, k, v) ==> Bubble(c, path, Trigger.Event(v)) == Some(path[k])
  {
    var at := BubbleFindsInnermost(c, path, Trigger.Event(v));
    forall k | 0 <= k < |path| ensures Handles(c, path[k], Trigger.Event(v)) <==> HandlesNumber(c, path[k], v) {
      DeclaredIffHandled(c, path[k], v);
    }
    if Bubble(c, path, Trigger.Event(v)).Some? {
      forall k: nat | IsInnermost(c, path, k, v) ensures k == at {}
    }
  }

  /** A step that takes an event shows its receipt and what the chart makes of it. */
  lemma ReceiptIsScripted<C, E>(env: Env<C, E>, ctx: C, inputs: seq<Input<E>>, d: nat)
    requires Ready(env.chart)
    requires var m := Run(env, ctx, inputs); m.path != [] && m.queue != [] && !IsDue(m.timers, d)
    ensures var m, m' := Run(env, ctx, inputs), Run(env, ctx, inputs + [Advance(d)]);
      var v, last := Number(env, m.queue[0]), env.chart.terminate == Some(env.variant(m.queue[0]));
      && m.journal <= m'.journal
      && [EventReceived(v)] + ReceiptScript(env.chart, m.path, v, last) <= NoEmits(m'.journal[|m.journal|..])
  {
    hide ApplyAll, ReceiptScript, IsDue, NextExpired, Decremented;
    var m := Run(env, ctx, inputs);
    var v, last := Number(env, m.queue[0]), env.chart.terminate == Some(env.variant(m.queue[0]));
    var script := ReceiptScript(env.chart, m.path, v, last);
    RunReads(env, ctx, inputs, 0, 0);
    FiresByMinimum(env, m, d);
    assert Depths(env.chart) == StateDepths(env.chart);
    forall event ensures
      var q := Obey(env, At(m, [], event), Advance(d));
      q.Some? && Begins(env, q.value, EventReceived(v), script)
    {
      ReceiptBegins(env, m, d, event);
    }
    ReceiptIsScript(env.chart, m.path, v, last);
    StepShows(env, ctx, inputs, d, EventReceived(v), script);
  }

  lemma ReceiptBegins<C, E>(env: Env<C, E>, m: Config<C, E>, d: nat, event: Option<E>)
    requires IsTree(env.chart) && m.path != [] && m.queue != [] && !m.terminated
    requires NextExpired(Decremented(m.timers, d), StateDepths(env.chart)) == None
    ensures var q := Obey(env, At(m, [], event), Advance(d));
      var v, last := Number(env, m.queue[0]), env.chart.terminate == Some(env.variant(m.queue[0]));
      q.Some? && Begins(env, q.value, EventReceived(v), ReceiptScript(env.chart, m.path, v, last))
  {
    hide ReceiptScript;
  }

  lemma ReceiptIsScript(c: Chart, path: seq<nat>, v: nat, last: bool)
    requires Ready(c) && path != []
    ensures var script := ReceiptScript(c, path, v, last);
      IsScript(script) && forall j :: 0 <= j < |script| ==> !IsEmit(script[j])
  {
    var h := Bubble(c, path, Trigger.Event(v));
    if !last && h.Some? { TriggerIsScript(c, path, h.value, Trigger.Event(v), Reason.Event(v)); }
  }

  lemma TriggerIsScript(c: Chart, path: seq<nat>, s: nat, trigger: Trigger, reason: Reason)
    requires Ready(c) && path != []
    ensures var script := TriggerScript(c, path, s, trigger, reason);
      IsScript(script) && forall j :: 0 <= j < |script| ==> !IsEmit(script[j])
  {
    if s < |c.states| {
      assert OrderedAt(c, s);
      LastAmongDeclared(c.states[s].handlers, trigger);
    }
  }

  /** A delivered event has all the declared handlers of the state it is delivered to run, in order. */
  lemma DeliveryRunsTheHandlers<C, E>(env: Env<C, E>, ctx: C, inputs: seq<Input<E>>, d: nat, k: nat)
    requires Ready(env.chart) && env.chart.nEvents <= 0xFFFF
    requires var m := Run(env, ctx, inputs); m.path != [] && m.queue != [] && !IsDue(m.timers, d)
    requires var m := Run(env, ctx, inputs); var v := env.variant(m.queue[0]);
      v < env.chart.nEvents && env.chart.terminate != Some(v) && IsInnermost(env.chart, m.path, k, v)
    ensures Run(env, ctx, inputs).journal <= Run(env, ctx, inputs + [Advance(d)]).journal
    ensures var m, m' := Run(env, ctx, inputs), Run(env, ctx, inputs + [Advance(d)]);
      var v, shown := env.variant(m.queue[0]), NoEmits(m'.journal[|m.journal|..]);
      ShowsHandlers(env.chart, m.path, m.path[k], Trigger.Event(v), Reason.Event(v), shown, 2)
  {
    hide ApplyAll, IsDue, HandlesNumber, NoEmits, ReceiptScript, IsInnermost, ShowsHandlers;
    var m := Run(env, ctx, inputs);
    var v := env.variant(m.queue[0]);
    ReceiptIsScripted(env, ctx, inputs, d);
    DeliveryShows(env.chart, m.path, k, v, NoEmits(Run(env, ctx, inputs + [Advance(d)]).journal[|m.journal|..]));
  }

  lemma DeliveryShows(c: Chart, path: seq<nat>, k: nat, v: nat, shown: seq<TraceEvent>)
    requires IsInnermost(c, path, k, v) && v != 0xFFFF
    requires [EventReceived(v)] + ReceiptScript(c, path, v, false) <= shown
    ensures ShowsHandlers(c, path, path[k], Trigger.Event(v), Reason.Event(v), shown, 2)
  {
    InnermostBubbles(c, path, v);
    var script := [EventReceived(v)] + ReceiptScript(c, path, v, false);
    assert forall j :: 0 <= j < |script| ==> shown[j] == script[j];
  }

  /** A step that takes event `e` receives it under its own variant. The terminate event is then
      acted on; any other goes to the innermost active state with a handler for it, and is dropped
      exactly when no active state has one. Events of variants the chart does not name are dropped
      under the number 65535. */
  lemma EventGoesWhereItShould<C, E>(env: Env<C, E>, ctx: C, inputs: seq<Input<E>>, d: nat)
    requires Ready(env.chart) && env.chart.nEvents <= 0xFFFF
    requires var m := Run(env, ctx, inputs); m.path != [] && m.queue != [] && !IsDue(m.timers, d)
    ensures Run(env, ctx, inputs).journal <= Run(env, ctx, inputs + [Advance(d)]).journal
    ensures var m, m' := Run(env, ctx, inputs), Run(env, ctx, inputs + [Advance(d)]);
      var v, shown := env.variant(m.queue[0]), NoEmits(m'.journal[|m.journal|..]);
      && |shown| >= 2
      && shown[0] == EventReceived(if v < env.chart.nEvents then v else 0xFFFF)
      && (v >= env.chart.nEvents ==> shown[1] == EventDropped(0xFFFF))
      && (v < env.chart.nEvents ==>
           if env.chart.terminate == Some(v) then m'.terminated && shown[1] == TerminateRequested(v)
           else
             && (shown[1] == EventDropped(v) <==>
                  forall k :: 0 <= k < |m.path| ==> !HandlesNumber(env.chart, m.path[k], v))
             && (forall k: nat :: IsInnermost(env.chart, m.path, k, v) ==> shown[1] == EventDelivered(m.path[k], v)))
  {
    hide ApplyAll, IsDue, IsInnermost, HandlesNumber, ReceiptScript, Step, NoEmits;
    var m := Run(env, ctx, inputs);
    var v := env.variant(m.queue[0]);
    ReceiptIsScripted(env, ctx, inputs, d);
    ReceiptHead(env.chart, m.path, v);
    RunSnoc(env, ctx, inputs, Advance(d));
    RunReads(env, ctx, inputs, 0, 0);
    EndsIffTerminates(env, m, d);
    if v >= env.chart.nEvents {
      ReceiptHead(env.chart, m.path, 0xFFFF);
    }
  }

  lemma ReceiptHead(c: Chart, path: seq<nat>, v: nat)
    requires path != []
    ensures ReceiptScript(c, path, v, true) == [TerminateRequested(v)]
    ensures var script := ReceiptScript(c, path, v, false);
      && script != []
      && (v == 0xFFFF ==> script[0] == EventDropped(v))
      && (v != 0xFFFF ==>
           && (script[0] == EventDropped(v) <==> forall k :: 0 <= k < |path| ==> !HandlesNumber(c, path[k], v))
           && (forall k: nat :: IsInnermost(c, path, k, v) ==> script[0] == EventDelivered(path[k], v)))
  {
    hide Bubble, TriggerScript, IsInnermost, HandlesNumber;
    InnermostBubbles(c, path, v);
  }

  /** A step that fires timer `t` of state `s` shows its firing, its arming at full duration exactly
      when the chart has it repeat, and then what `s` declares for it, in order. */
  lemma FiringIsScripted<C, E>(env: Env<C, E>, ctx: C, inputs: seq<Input<E>>, d: nat, i: nat)
    requires Ready(env.chart) && Run(env, ctx, inputs).path != []
    requires IsNext(Decremented(Run(env, ctx, inputs).timers, d), StateDepths(env.chart), i)
    ensures var c, m, m' := env.chart, Run(env, ctx, inputs), Run(env, ctx, inputs + [Advance(d)]);
      var s, t := m.timers[i].state, m.timers[i].trigger;
      && t < |c.durations| && s < |c.states| && m.journal <= m'.journal
      && var shown := NoEmits(m'.journal[|m.journal|..]);
      && |shown| > 0 && shown[0] == TimerFired(s, t)
      && if c.durations[t].repeats then
           && |shown| > 1 && shown[1] == TimerArmed(s, t, c.durations[t].ns % 0x1_0000_0000_0000_0000)
           && ShowsHandlers(c, m.path, s, Duration(t), Reason.Timer(s, t), shown, 2)
         else ShowsHandlers(c, m.path, s, Duration(t), Reason.Timer(s, t), shown, 1)
  {
    hide ApplyAll, TriggerScript, NextExpired, Decremented, SwapRemove, Step;
    hide Obey, Begins, StateDepths, DepthOf, RootPath;
    var c, m := env.chart, Run(env, ctx, inputs);
    var ts := Decremented(m.timers, d);
    var s, t := m.timers[i].state, m.timers[i].trigger;
    NextExpiredIsDeepest(ts, StateDepths(c));
    RunOwnsEntry(env, ctx, inputs, i);
    var again := if c.durations[t].repeats then [TimerArmed(s, t, FullTime(c, t))] else [];
    var script := again + TriggerScript(c, m.path, s, Duration(t), Reason.Timer(s, t));
    forall event ensures
      var q := Obey(env, At(m, [], event), Advance(d));
      q.Some? && Begins(env, q.value, TimerFired(s, t), script)
    {
      FiringBegins(env, m, d, i, event);
    }
    TriggerIsScript(c, m.path, s, Duration(t), Reason.Timer(s, t));
    StepShows(env, ctx, inputs, d, TimerFired(s, t), script);
    var shown := NoEmits(Run(env, ctx, inputs + [Advance(d)]).journal[|m.journal|..]);
    FiringShows(c, m.path, s, t, shown);
  }

  lemma FiringShows(c: Chart, path: seq<nat>, s: nat, t: nat, shown: seq<TraceEvent>)
    requires s < |c.states| && t < |c.durations| && path != []
    requires var again := if c.durations[t].repeats then [TimerArmed(s, t, FullTime(c, t))] else [];
      [TimerFired(s, t)] + (again + TriggerScript(c, path, s, Duration(t), Reason.Timer(s, t))) <= shown
    ensures |shown| > 0 && shown[0] == TimerFired(s, t)
    ensures if c.durations[t].repeats then
        && |shown| > 1 && shown[1] == TimerArmed(s, t, c.durations[t].ns % 0x1_0000_0000_0000_0000)
        && ShowsHandlers(c, path, s, Duration(t), Reason.Timer(s, t), shown, 2)
      else ShowsHandlers(c, path, s, Duration(t), Reason.Timer(s, t), shown, 1)
  {
    var again := if c.durations[t].repeats then [TimerArmed(s, t, FullTime(c, t))] else [];
    var script := [TimerFired(s, t)] + (again + TriggerScript(c, path, s, Duration(t), Reason.Timer(s, t)));
    assert forall j :: 0 <= j < |script| ==> shown[j] == script[j];
  }

  lemma RunOwnsEntry<C, E>(env: Env<C, E>, ctx: C, inputs: seq<Input<E>>, i: nat)
    requires Ready(env.chart) && i < |Run(env, ctx, inputs).timers|
    ensures var m := Run(env, ctx, inputs);
      && m.timers[i].state in m.path && m.timers[i].state < |env.chart.states|
      && m.timers[i].trigger < |env.chart.durations|
  {
    hide ReadLog, RunLog, ApplyAll, ClockOk;
    RunReads(env, ctx, inputs, 0, 0);
    var m := Run(env, ctx, inputs);
    assert EntryOwned(env.chart, m.timers, m.path, i) && StateOk(env.chart, m.timers[i].state);
  }

  lemma FiringBegins<C, E>(env: Env<C, E>, m: Config<C, E>, d: nat, i: nat, event: Option<E>)
    requires IsTree(env.chart) && m.path != [] && !m.terminated && i < |m.timers|
    requires NextExpired(Decremented(m.timers, d), StateDepths(env.chart)) == Some(i)
    requires m.timers[i].trigger < |env.chart.durations|
    ensures var c, s, t := env.chart, m.timers[i].state, m.timers[i].trigger;
      var again := if c.durations[t].repeats then [TimerArmed(s, t, FullTime(c, t))] else [];
      var script := again + TriggerScript(c, m.path, s, Duration(t), Reason.Timer(s, t));
      var q := Obey(env, At(m, [], event), Advance(d));
      q.Some? && Begins(env, q.value, TimerFired(s, t), script)
  {
    hide TriggerScript, SwapRemove, NextExpired, FullTime;
  }
}
