/** From a lowered chart to a running machine, and the machine driven through a whole run. */
module Generator {
  import opened Wrappers
  import opened Charts
  import opened Validate
  import opened Tables
  import opened TableCheck
  import opened Dispatch
  import opened Reference
  import opened Machines
  import opened Layouts
  import opened Interning
  import opened Drafts
  import opened Frontend

  lemma AcceptedIsReady(c: Chart)
    requires WellFormed(c) && Accepted(c) && DefaultsTerminate(c)
    ensures Ready(c)
  {
    forall s: nat | s < |c.states| ensures OrderedAt(c, s) { assert StateAccepted(c, s); }
  }

  /** The path tables, once they have passed the build-time bounds check, which they always do. */
  method CheckedPathTables(c: Chart) returns (r: Option<PathTables>)
    requires WellFormed(c)
    ensures r.Some? <==> PathSize(c) <= U16_MAX
    ensures r.Some? ==> PathTablesOk(c, r.value) && Sound(r.value, |c.states|) && |c.states| <= 255
  {
    r := BuildPathTables(c);
    if r.None? { return; }
    FewStates(c);
    BuiltTablesAreSound(c, r.value);
    var sound := CheckTables(r.value, |c.states|);
    if !sound { return None; }
  }

  /** Validation and table generation. */
  method Compile(c: Chart) returns (r: Option<(PathTables, DispatchTables)>)
    requires WellFormed(c)
    ensures r.Some? <==> Accepted(c) && PathSize(c) <= U16_MAX && c.nEvents <= U16_MAX
    ensures r.Some? ==> Ready(c) && |c.states| <= 255
    ensures r.Some? ==> PathTablesOk(c, r.value.0) && Sound(r.value.0, |c.states|) && DispatchOk(c, r.value.1)
  {
    var ok := ValidateChart(c);
    if !ok { return None; }
    AcceptedIsReady(c);
    var paths := CheckedPathTables(c);
    if paths.None? { return None; }
    var events := ComputeEventDispatch(c);
    if events.None? { return None; }
    r := Some((paths.value, events.value));
  }

  /** The whole macro, from a parsed chart to the tables. */
  method CompileSource(source: Source, ns: string -> nat, hash: nat)
    returns (chart: Option<Chart>, tables: Option<(PathTables, DispatchTables)>)
    ensures chart.Some? <==> Lowers(source)
    ensures chart.Some? ==> Depicts(chart.value, source, ns) && WellFormed(chart.value)
    ensures tables.Some? <==> (
        && chart.Some? && UniqueNames(ScopeOf(source).states)
        && Accepted(chart.value) && PathSize(chart.value) <= U16_MAX && chart.value.nEvents <= U16_MAX)
    ensures tables.Some? ==> Ready(chart.value) && Sound(tables.value.0, |chart.value.states|)
    ensures tables.Some? ==> PathTablesOk(chart.value, tables.value.0) && DispatchOk(chart.value, tables.value.1)
  {
    hide NamesOf, Lowers, Depicts, UniqueNames, ScopeOf, PathTablesOk, Sound, DispatchOk, Accepted, Ready;
    var unique;
    chart, unique := LowerChart(source, ns, hash);
    if chart.None? { return None, None; }
    DepictedIsWellFormed(chart.value, source, ns);
    if !unique { return chart, None; }
    tables := Compile(chart.value);
  }

  /** A machine comes out exactly when the chart is accepted and its paths and events fit 16 bits; its
      tables are then in bounds and it is ready to start. */
  method Generate<C, E>(env: Env<C, E>, ctx: C) returns (r: Option<Machine<C, E>>)
    requires WellFormed(env.chart)
    ensures r.Some? <==> Accepted(env.chart) && PathSize(env.chart) <= U16_MAX && env.chart.nEvents <= U16_MAX
    ensures r.Some? ==> r.value.Valid() && r.value.env == env && r.value.Abs() == Init(ctx)
    ensures r.Some? ==> fresh(r.value) && fresh(r.value.timers)
  {
    var tables := Compile(env.chart);
    if tables.None? { return None; }
    var machine := new Machine(env, tables.value.0, tables.value.1, ctx);
    r := Some(machine);
  }

  /** Any sequence of calls takes the table-driven machine through exactly the configurations of
      the reference interpreter: same journal, context, queue, timers and active path. */
  method Drive<C, E>(machine: Machine<C, E>, inputs: seq<Input<E>>)
    requires machine.Valid()
    modifies machine, machine.timers
    ensures machine.Valid()
    ensures machine.Abs() == ApplyAll(machine.env, old(machine.Abs()), inputs)
  {
    hide Apply;
    ghost var m := machine.Abs();
    var i := 0;
    while i < |inputs|
      invariant i <= |inputs| && machine.Valid()
      invariant machine.Abs() == ApplyAll(machine.env, m, inputs[..i])
    {
      ApplyNext(machine.env, m, inputs[..i], inputs[i]);
      assert inputs[..i] + [inputs[i]] == inputs[..i + 1];
      Call(machine, inputs[i]);
      i := i + 1;
    }
    assert inputs[..i] == inputs;
  }

  method Call<C, E>(machine: Machine<C, E>, input: Input<E>)
    requires machine.Valid()
    modifies machine, machine.timers
    ensures machine.Valid() && machine.Abs() == Apply(machine.env, old(machine.Abs()), input)
  {
    match input {
      case SendEvent(e) => var _ := machine.Send(e);
      case Advance(d) => var _ := machine.Step(d);
      case TakeFlag => var _ := machine.TakeOverflow();
    }
  }
}
