# hsmc: statechart compiler and generated machine

A statechart is a tree of states with entry and exit actions, event and timer handlers, and
optional `default(...)` transitions. `hsmc-macros` lowers a declared chart to a numbered state
list, validates it, and precomputes flat tables; the machine it generates runs off those tables,
with a bounded event queue and a bounded timer table from `hsmc`. This project models the whole
way, for an arbitrary chart, and proves that the tables mean what the chart says.

- **Lowering** (`Layout`, `Interning`, `Drafts`, `Lowering`, `Frontend`). A parsed chart is lowered
  in place by a recursive method on a mutable representation, then names are resolved in place.
  The result is characterised by a preorder layout and by what each number stands for.
- **Validation** (`Validate`, `Handlers`, `Acceptance`). The three-colour walk over default edges and the
  per-trigger order rule, each proved to accept exactly the charts it should.
- **Path and dispatch tables** (`Tree`, `Paths`, `Routes`, `Flat`, `Tables`, `TableCheck`,
  `Dispatch`). All-pairs exit and enter paths, terminate paths and the event table, against root
  paths, lowest common ancestors and bubbling; 16-bit offsets are explicit.
- **Runtime structures** (`Timers`). The timer table with its truncation to 64 bits, saturating
  countdown, deepest-first expiry and swap-removal.
- **Reference interpreter** (`Reference`). What a chart means, run directly on the active path:
  events bubble, common ancestors are found when a transition fires, defaults fire as transitions.
- **Small steps** (`SmallSteps`, `Playing`, `Transcripts`). The machine once more, one journal entry
  at a time: the chart's data alone says what must come next. The interpreter's run is proved to be
  the only one these steps allow.
- **The machine** (`Machine`). A class with the generated machine's fields. Every method equals
  the reference step on the abstract configuration, and all table indices are in bounds. `current`
  is stale while exits run, so a ghost `path` carries the active path.
- **Runs** (`Observe`, `TimerFacts`, `Keeps`, `Runs`, `Theorems`, `Nesting`, `Resting`, `Settling`,
  `Arming`, `Capacity`, `Sharing`, `Generator`). A journal grammar, and a reading of the journal
  that counts queue traffic, moves and the age of each timer; invariants kept by every operation,
  and the results about all runs.

User actions are arbitrary: a function from action, context and event to a finite tree of `emit`
calls that may branch on each call's result and ends with a new context. Charts, event types and
capacities are parameters.

## Where the code and its descriptions differ

The model follows the code.

- `hsmc/src/lib.rs:819` speaks of a saturating cast at insert; the cast truncates
  (`Timers.OnTimeIffDurationInRange`, `Timers.OnTimeIffStepInRange`).
- `hsmc/src/lib.rs:881-882` says ties between expired timers are broken by declaration order; they
  are broken by current table position, which swap-removal changes.
- `hsmc-macros/src/codegen.rs:2431-2433` says enter slices include the default descent; they do
  not, `follow_defaults` does that work.
- The table is sized by the number of distinct durations, while entries are keyed by state and
  duration: nested states sharing a duration can overflow it, and the lost push is silent
  (`Capacity.TravelArmsIffFits` says exactly when, `Sharing.SharedLosesATimer` gives a
  chart). `TimerArmed` is journaled even then, and `TimerCancelled` also for timers that have
  already fired, so these two do not pair up.
- `hsmc-macros/src/validate.rs:98-102` says a default must be a direct child; the check it refers to
  (`validate.rs:268-273`) accepts any state, and so does the model.
- A nested state may carry the chart's own name; the check on names lets it through
  (`Frontend.ChartNameShadowsState`), and no transition or default ever reaches it
  (`Frontend.ShadowedIsUnreachable`).

## Model

| member | source | states |
|---|---|---|
| Layouts.SubtreeIsInterval | hsmc-macros/src/ir.rs:197-217 | Ids are preorder: the states at or below `s` are exactly the ids from `s` to `s` plus the number of states its declaration nests |
| Layouts.LayoutIsTree | hsmc-macros/src/ir.rs:453-461 | Whatever is laid out this way is a tree: root 0, parents numbered before children, depth one more than the parent's |
| Layouts.ChildrenInvertParents | hsmc-macros/src/ir.rs:453-461 | A state is in another's child list exactly when that other is its parent |
| Layouts.ParentIsNear | hsmc-macros/src/ir.rs:453-461 | Every state lies inside the id interval of its parent's subtree |
| Layouts.SubtreeInside | hsmc-macros/src/ir.rs:453-461 | Each state of the layout is followed immediately by its whole subtree, itself laid out the same way |
| Interning.TablesHoldTheMentions | hsmc-macros/src/ir.rs:219-239 | Interning in order numbers nothing twice, and numbers exactly what is mentioned |
| Interning.FullKeyIsInjective | hsmc-macros/src/ir.rs:383-385 | The text durations are compared by is equal exactly when expression and repetition are |
| Wrappers.Position | hsmc-macros/src/ir.rs:219-231 | Finds the first position of a name, or none exactly when it is absent |
| Interning.PositionOfKey | hsmc-macros/src/ir.rs:383-388 | Comparing texts finds a duration exactly when that very duration is in the table |
| Interning.DeclaredAreLaidOut | hsmc-macros/src/ir.rs:187-195 | The collected names are exactly the names of the states the tree is given |
| Lowering.Ir.AllocState | hsmc-macros/src/ir.rs:197-217 | The next id is the number of states so far; earlier states are untouched |
| Lowering.Ir.InternAction | hsmc-macros/src/ir.rs:219-239 | The position returned stands for the name; the table gains it only if it was missing |
| Lowering.Ir.InternEvent | hsmc-macros/src/ir.rs:309-373 | The position returned stands for the variant; the table gains it only if it was missing |
| Lowering.Ir.InternDuration | hsmc-macros/src/ir.rs:383-397 | The position returned stands for expression and repetition together; the table gains the pair only if it was missing |
| Lowering.Ir.InternActions | hsmc-macros/src/ir.rs:406-413 | A list of actions becomes, position by position, the ids of its names |
| Lowering.Ir.LowerTrigger | hsmc-macros/src/ir.rs:418-437 | The trigger stands for what was declared; a duration joins the state's owned timers once |
| Lowering.Ir.ClassifyTarget | hsmc-macros/src/ir.rs:475-507 | A declared state name makes a transition, anything else an action; refused exactly for an `every` timer leading to a state |
| Lowering.Ir.LowerHandlers | hsmc-macros/src/ir.rs:416-447 | All handlers in order with their positions; owned timers are exactly the durations among them, in order of first use |
| Lowering.Ir.LowerBody | hsmc-macros/src/ir.rs:399-473 | Fails exactly when some `every` timer in the subtree leads to a state; otherwise the subtree is laid out from its id on, every declaration is kept, nothing before it changes, and the tables grow by exactly what is mentioned |
| Lowering.Ir.LowerChildren | hsmc-macros/src/ir.rs:453-461 | Siblings' subtrees follow one another; the child list holds the siblings' ids |
| Drafts.TimersOfIsExact | hsmc-macros/src/ir.rs:429-434 | A state owns a timer exactly when one of its handlers is triggered by it, and owns none twice |
| Drafts.TimersInOrderOfUse | hsmc-macros/src/ir.rs:429-434 | Owned timers are listed in order of first use |
| Drafts.LoweredStays | hsmc-macros/src/ir.rs:399-473 | Numbering more names later does not change what earlier states mean |
| Lowering.Ir.NameMap | hsmc-macros/src/ir.rs:520-533 | The map gives each name its last state, the reserved root name nothing, and the chart's own name the root |
| Lowering.Ir.ResolveHandler | hsmc-macros/src/ir.rs:538-558 | Fills one open slot with the state its name stands for, and fails exactly when there is none |
| Lowering.Ir.ResolveHandlers | hsmc-macros/src/ir.rs:536-562 | Fills every open slot of one state in place, and fails exactly when one of its targets is unknown |
| Lowering.Ir.ResolveDefaults | hsmc-macros/src/ir.rs:565-580 | Fills every default, and fails exactly when one names no state |
| Lowering.Ir.ResolveTransitions | hsmc-macros/src/ir.rs:520-580 | Succeeds exactly when all names are known, and then every transition and default holds the state its name stands for, with nothing else changed |
| Lowering.Ir.HasUniqueNames | hsmc-macros/src/validate.rs:12-24 | Accepts exactly when no two states share a name, the reserved root name aside |
| Frontend.CollectStateNames | hsmc-macros/src/ir.rs:187-195 | Adds exactly the names declared at any depth |
| Frontend.BuildIr | hsmc-macros/src/ir.rs:126-185 | Fails exactly when an `every` timer leads to a state; otherwise the states depict the declarations, and the terminate event is numbered with the others |
| Frontend.LowerChart | hsmc-macros/src/lib.rs:22-27 | Lowering and resolution succeed exactly on charts whose names are known and whose `every` timers run actions; the chart then says exactly what was declared |
| Frontend.LowersExactly | hsmc-macros/src/ir.rs:475-580 | A declaration is refused for two reasons only: a target or default that names no state, and an `every` timer that leads to a state |
| Frontend.StateNamesExactly | hsmc-macros/src/ir.rs:158-164 | A target is taken for a state exactly when it is the chart's name or that of a nested state |
| Frontend.DepictedExactly | hsmc-macros/src/ir.rs:399-580 | Each numbered state has exactly the declared entries, exits and handlers by name, its durings, each trigger with its event or with its duration and repetition, each target and default the state it names, the chart's name meaning the root |
| Frontend.DepictedIsWellFormed | hsmc-macros/src/ir.rs:520-580 | Such a chart is a tree with resolved handlers, defaults and owned timers: all that validation and code generation rely on |
| Frontend.TriggersAgree | hsmc-macros/src/ir.rs:309-397 | Two handlers anywhere share a 16-bit trigger id exactly when they were declared for the same event, or for the same duration and repetition, with at most 65,536 events and durations |
| Frontend.CastsKeepApartIffFew | hsmc-macros/src/ir.rs:388-396 | The 16-bit ids of a table without repeats keep its entries apart if and only if there are at most 65,536 of them |
| Frontend.TargetsResolve | hsmc-macros/src/ir.rs:543-560 | A target taken for a state is always resolved, except that a declared state under the root's reserved name never is: exactly then the unknown-state error is reached |
| Frontend.UniqueNamesResolve | hsmc-macros/src/ir.rs:520-533 | Where names are unique, each declared name stands for its one state, except the chart's name (the root) and the reserved name (nothing) |
| Frontend.ShadowedIsUnreachable | hsmc-macros/src/ir.rs:529-533 | In every chart, no handler and no default leads to a nested state named like the chart |
| Frontend.ChartNameShadowsState | hsmc-macros/src/validate.rs:12-24 | A concrete chart with such a state: it lowers, its names are unique, it is accepted, and its transition to that name goes to the root |
| Tree.LcaIsDeepest | hsmc-macros/src/codegen.rs:137-153 | A state is a common ancestor-or-self of two states exactly when it is an ancestor-or-self of their LCA |
| Tree.PrefixIsRootPath | hsmc-macros/src/codegen.rs:137-153 | Every prefix of a root path is the root path of its last state; depth and parent follow from the index |
| Paths.MeetUp | hsmc-macros/src/codegen.rs:147-152 | From equal depth, walking both sides up in step ends at the LCA |
| Paths.RaiseTo | hsmc-macros/src/codegen.rs:140-146 | Walking up to a depth gives the path's state at that depth |
| Paths.LcaWalk | hsmc-macros/src/codegen.rs:137-153 | The two depth walks and the joint walk always find the LCA, never the failure exit |
| Paths.IsStrictAncestor | hsmc-macros/src/codegen.rs:155-164 | True exactly for a different state on the root path |
| Paths.WalkUp | hsmc-macros/src/codegen.rs:166-218 | Walking up to a stop collects exactly the states below it, innermost first |
| Paths.ComputeOne | hsmc-macros/src/codegen.rs:166-218 | Exits are the part of the source's root path below the states kept, innermost first; enters the part of the target's, outermost first |
| Routes.RouteEnds | hsmc-macros/src/codegen.rs:166-218 | Nothing is entered exactly for a strict ancestor; otherwise the last state entered is the target; a self-transition leaves and enters just itself |
| Routes.RouteLength | hsmc-macros/src/codegen.rs:166-218 | The two parts have lengths depth(from) - depth(lca) and depth(to) - depth(lca) |
| Routes.RouteSparesCommon | hsmc-macros/src/codegen.rs:166-218 | No common ancestor-or-self is exited or entered; for a self-transition, no proper ancestor |
| Routes.ThroughIsRoute | hsmc-macros/src/codegen.rs:166-218 | Exits, LCA, enters put together are the route through the LCA |
| Routes.SimpleWalkIsUnique | hsmc-macros/src/codegen.rs:166-218 | Any walk along parent links that repeats no state is that route: there is no other way from one state to another |
| Flat.SliceIsRow | hsmc-macros/src/codegen.rs:1329-1357 | Cutting the concatenation at a row's offsets gives the row back |
| Flat.PairIndexInverse | hsmc-macros/src/codegen.rs:220-253 | The row-major index of a pair determines the pair |
| Flat.AppendRow | hsmc-macros/src/codegen.rs:265-288 | Appending a row keeps all earlier ranges, and fails exactly when its end offset passes 16 bits |
| Tables.ComputeTransitionPaths | hsmc-macros/src/codegen.rs:220-253 | The row-major tables hold every pair's exits and enters; succeeds exactly when both data arrays fit 16-bit offsets |
| Tables.FoldPathTables | hsmc-macros/src/codegen.rs:1329-1357 | Each folded triple delimits that pair's exits, then its enters; fails exactly when the folded data passes 16-bit offsets |
| Tables.WalkToRoot | hsmc-macros/src/codegen.rs:265-288 | The parent walk collects the reversed root path |
| Tables.ComputeTerminatePaths | hsmc-macros/src/codegen.rs:265-288 | Each state's range holds its path to the root, innermost first, root included |
| Tables.BuildPathTables | hsmc-macros/src/codegen.rs:1329-1367 | Succeeds exactly when all exits and enters together fit 16-bit offsets; then slicing at `from * n + to` gives that pair's lists back, for every pair, and the data is their concatenation in order |
| Tables.FewStates | hsmc-macros/src/codegen.rs:1333-1348 | A chart whose paths fit has at most 255 states, all of depth below 255, so no id or depth is truncated |
| Tables.TerminateFits | hsmc-macros/src/codegen.rs:265-288 | Where the path table fits, the terminate table does too, so its own overflow exit is dead |
| TableCheck.CheckPathRange | verification/src/paths.rs:70-88 | Accepts exactly ranges with start, middle and end in order and inside the data |
| TableCheck.CheckTerminateRange | verification/src/paths.rs:94-107 | Accepts exactly ranges in order and inside the data |
| TableCheck.CheckStateIds | verification/src/paths.rs:113-125 | Accepts exactly data whose ids are all states |
| TableCheck.CheckDefaults | verification/src/paths.rs:134-149 | Accepts exactly defaults that name states |
| TableCheck.CheckTables | verification/src/paths.rs:175-188 | Accepts exactly sound tables: all ranges and ids in bounds |
| TableCheck.SoundExactly | verification/src/paths.rs:175-188 | Sound tables are exactly those in which no range reaches outside its data and nothing stored names a state that is not there |
| TableCheck.BuiltTablesAreSound | hsmc-macros/src/codegen.rs:2475-2541 | For every chart, tables that were built are sound: the build-time assertions never fail |
| Generator.CheckedPathTables | hsmc-macros/src/codegen.rs:2475-2541 | Adding the bounds check rejects no chart |
| Validate.ValidateDefaultGraph | hsmc-macros/src/validate.rs:190-243 | Accepts exactly when the default edges contain no cycle, which is exactly when some ranking falls along every edge; always ends, and never misses the gray state on its chain |
| Validate.WalkChain | hsmc-macros/src/validate.rs:200-237 | One walk ends at a finished or default-less state with the chain marked, or returns a genuine cycle |
| Validate.Blacken | hsmc-macros/src/validate.rs:238-240 | Finishing a chain keeps the invariant that finished states lead only to finished, lower-ranked ones |
| Validate.RankingExcludesCycles | hsmc-macros/src/validate.rs:176-190 | A ranking rules out every default cycle |
| Validate.ValidateChart | hsmc-macros/src/validate.rs:10-178 | Accepts exactly the charts without default cycles whose states are not empty and keep the handler order |
| Validate.AcceptedExactly | hsmc-macros/src/validate.rs:10-178 | A chart is accepted exactly when no defaults form a cycle, each trigger of each state has at most one transition, declared last, and every state but the root has an entry or exit action, a handler, a nested state or a during |
| Acceptance.AcceptedIffNothingIsEmpty | hsmc-macros/src/validate.rs:43-53 | On declarations: with acyclic defaults and transitions last, accepted exactly when every nested body declares at least one of the five |
| Acceptance.EmptyStateIsRefused | hsmc-macros/src/validate.rs:43-53 | For every chart of a root and one nested state without handlers and states: accepted exactly with an entry action, an exit action or a during; the one declaring nothing lowers and is refused |
| Handlers.ValidateHandlers | hsmc-macros/src/validate.rs:104-175 | Accepts exactly when, per trigger, a state has at most one transition and declares it after all actions |
| Handlers.GroupingIsExact | hsmc-macros/src/codegen.rs:333-349 | Grouping loses and reorders nothing, for any trigger, exactly when that order rule holds |
| Handlers.GroupHandlers | hsmc-macros/src/codegen.rs:1555-1577 | One group per trigger mentioned: its actions in order of declaration and its last transition |
| Handlers.SortKeepsDeclOrder | hsmc-macros/src/codegen.rs:1566-1567 | The stable sort changes nothing on handlers numbered by position |
| Dispatch.BubbleFindsInnermost | hsmc-macros/src/codegen.rs:303-321 | Bubbling finds nothing exactly when nobody on the path handles the event, and otherwise the one handler with none deeper |
| Dispatch.Resolve | hsmc-macros/src/codegen.rs:350-366 | The build-time parent walk gives the bubbling result with that state's group, or the sentinel exactly when nobody handles it |
| Dispatch.DispatchEntries | hsmc-macros/src/codegen.rs:350-368 | One entry per state and 16-bit event number, in row-major order; with at most 65,535 events every entry is the bubbling result |
| Dispatch.ComputeEventDispatch | hsmc-macros/src/codegen.rs:322-370 | The array has its declared length exactly with at most 65,535 events; then every (state, event) entry equals bubbling along that state's root path, and every state's lookup holds its groups |
| Timers.TimerTable.Start | hsmc/src/lib.rs:835-854 | Resets the entry of that key, else appends one, else (table full) changes nothing |
| Timers.TimerTable.CancelState | hsmc/src/lib.rs:859-863 | Keeps exactly the other states' entries, in order |
| Timers.TimerTable.Decrement | hsmc/src/lib.rs:872-880 | Every entry loses the low 64 bits of the elapsed time, stopping at zero |
| Timers.TimerTable.PopExpired | hsmc/src/lib.rs:890-921 | Removes and reports the next entry to fire, the last entry taking its place; none and no change when nothing has expired |
| Timers.TimerTable.Minimum | hsmc/src/lib.rs:927-942 | The shortest time left; none for an empty table |
| Timers.StartIsExact | hsmc/src/lib.rs:841-854 | Arming resets the first entry of the key to the low 64 bits of the duration and leaves all others; a key without an entry gets one at the end if there is room |
| Timers.NextExpiredIsDeepest | hsmc/src/lib.rs:899-913 | None exactly when nothing is at zero; otherwise the one entry that is expired, of greatest depth among expired, and first of those in table order |
| Timers.SwapRemove | hsmc/src/lib.rs:914-921 | All other entries remain, as a multiset |
| Timers.MinRemaining | hsmc/src/lib.rs:927-942 | A value some entry has and no entry is below; none exactly for an empty table |
| Timers.FiresByLowBits | hsmc/src/lib.rs:835-880 | A lone timer fires on its first step exactly when the low 64 bits of its duration are at most those of the step length |
| Timers.OnTimeIffDurationInRange | hsmc/src/lib.rs:841 | For all steps below 2^64 ns, a timer fires exactly on those completing its duration, if and only if the duration is below 2^64 ns |
| Timers.OnTimeIffStepInRange | hsmc/src/lib.rs:876 | For all durations below 2^64 ns, a step fires exactly the timers it completes, if and only if it is below 2^64 ns or its low 64 bits are all ones |
| Timers.TruncatedStepFiresLate | hsmc/src/lib.rs:876 | A timer of 1 ns does not fire on a step of 2^64 ns |
| Reference.RunAct | hsmc-macros/src/codegen.rs:2370-2390 | An action changes context, queue, flag and journal only: never the active path, the timers or termination |
| Reference.Enter | hsmc-macros/src/codegen.rs:3145-3161 | The active path grows by the state |
| Reference.Exit | hsmc-macros/src/codegen.rs:3233-3250 | The active path loses its innermost state |
| Reference.Travel | hsmc-macros/src/codegen.rs:3051-3081 | Whatever the start, the active path becomes the target's root path |
| Reference.FollowDefaults | hsmc-macros/src/codegen.rs:3191-3211 | Terminates, at a whole root path |
| Reference.FollowStep | hsmc-macros/src/codegen.rs:3191-3211 | One default at a time, going on only after something was entered; the rank of the innermost state falls |
| Reference.Fire | hsmc-macros/src/codegen.rs:2913-2929 | A transition with its defaults leaves a whole root path |
| Reference.Deliver | hsmc-macros/src/codegen.rs:2759-2794 | Delivering an event leaves a whole root path |
| Reference.FireTimer | hsmc-macros/src/codegen.rs:1210-1226 | Firing a timer leaves a whole root path |
| Reference.Shutdown | hsmc-macros/src/codegen.rs:3294-3312 | Ends with empty path and queue |
| Reference.Receive | hsmc-macros/src/codegen.rs:2750-2794 | Taking the queue's head ends the machine or leaves a whole root path |
| Reference.Step | hsmc-macros/src/codegen.rs:2737-2799 | Between calls the machine is unstarted, ended, or on a whole root path |
| Reference.PatienceIsNoMatter | hsmc-macros/src/codegen.rs:2883-2888 | A drain that ends within some bound ends the same way under every larger bound |
| Machines.Machine.constructor | hsmc-macros/src/codegen.rs:2640-2656 | A machine over an accepted chart's tables starts as the initial configuration |
| Machines.Machine.Emit | hsmc-macros/src/codegen.rs:2370-2390 | Queues and journals an event unless an emit has failed or the queue is full; then it fails, sets the flag and journals that |
| Machines.Machine.RunAction | hsmc-macros/src/codegen.rs:2970-3003 | Running an action equals the reference run of it; the terminated result never occurs |
| Machines.Machine.RunEntries | hsmc-macros/src/codegen.rs:3145-3152 | All listed actions run in order; the early return is never taken |
| Machines.Machine.ArmTimers | hsmc-macros/src/codegen.rs:3153-3157 | Each owned timer is started and journaled, in order, journaled even if the push was lost |
| Machines.Machine.EnterState | hsmc-macros/src/codegen.rs:3145-3161 | Equals the reference entry; `current` is the entered state |
| Machines.Machine.StopState | hsmc-macros/src/codegen.rs:3238-3242 | Durings and owned timers are journaled as cancelled and the state's entries removed, before any exit action |
| Machines.Machine.ExitState | hsmc-macros/src/codegen.rs:3233-3250 | Equals the reference exit of the innermost state; `current` stays as it was |
| Machines.Machine.LookupPath | hsmc-macros/src/codegen.rs:3052-3067 | The range lookup is in bounds and its two slices are the specified exits and enters |
| Machines.Machine.ApplyPath | hsmc-macros/src/codegen.rs:3051-3081 | Equals leaving and entering around the LCA found at run time; true exactly when something was entered |
| Machines.Machine.FollowAll | hsmc-macros/src/codegen.rs:3191-3211 | Terminates, equals firing defaults as transitions |
| Machines.Machine.Transition | hsmc-macros/src/codegen.rs:3110-3117 | A transition, and its defaults only if something was entered |
| Machines.Machine.RunActions | hsmc-macros/src/codegen.rs:2908-2912 | Running a group's actions leaves exactly the rest of its declared handlers to run |
| Machines.Machine.RunHandlers | hsmc-macros/src/codegen.rs:2897-2930 | Running a group equals running the declared handlers it stands for, with the transition bracketed |
| Machines.Machine.RunLookup | hsmc-macros/src/codegen.rs:3335-3339 | The lookup runs exactly the declared handlers of that state for that trigger |
| Machines.Machine.DeliverEvent | hsmc-macros/src/codegen.rs:2759-2794 | The one-step table lookup equals bubbling up the active path |
| Machines.Machine.CountDown | hsmc-macros/src/codegen.rs:1205-1212 | All timers advance, and the next expired one, if any, is taken out |
| Machines.Machine.FireExpired | hsmc-macros/src/codegen.rs:1210-1226 | Equals the reference firing, a repeating timer being armed again first |
| Machines.Machine.Receive | hsmc-macros/src/codegen.rs:2750-2795 | Equals taking the queue's head in the reference: the terminate event ends the machine, any other is delivered |
| Machines.Machine.DoTerminate | hsmc-macros/src/codegen.rs:3294-3312 | Equals leaving the whole active path, then emptying the queue |
| Machines.Machine.Step | hsmc-macros/src/codegen.rs:2737-2799 | One step equals the reference step in context, path, queue, timers, flags, journal and returned deadline, and keeps `current` at the innermost state |
| Machines.Machine.Send | hsmc-macros/src/codegen.rs:2860-2863 | Queues at the end, or refuses when full or ended; the overflow flag plays no part |
| Machines.Machine.TakeOverflow | hsmc-macros/src/codegen.rs:2663-2667 | Returns the flag and clears it, nothing else |
| Machines.Machine.Dispatch | hsmc-macros/src/codegen.rs:2874-2889 | Equals sending and draining in the reference: steps of no duration, the flag taken after each, stopping at once on overflow, end or an empty queue |
| Machines.NextRound | hsmc-macros/src/codegen.rs:2884-2885 | A round of draining is a step of no duration after which the flag is read and cleared |
| Machines.DispatchIsRounds | hsmc-macros/src/codegen.rs:2874-2889 | Refused exactly when the machine has ended or its queue is full, with nothing done; otherwise a send and some rounds, each taken because events were queued, the machine had not ended and the last step had room for its emits; the verdict says which of these failed first, overflow before the others, or that patience ran out |
| Machines.TriggerByGroup | hsmc-macros/src/codegen.rs:333-349 | On an accepted chart, running a state's group equals running its declarations for the trigger |
| Generator.Compile | hsmc-macros/src/codegen.rs:760-770 | Tables come out exactly for accepted charts whose paths and events fit 16 bits; they are then sound and exact |
| Generator.CompileSource | hsmc-macros/src/lib.rs:22-29 | From the parsed chart: tables come out exactly when lowering succeeds, names are unique, the chart is accepted, and its paths and events fit 16 bits |
| Generator.Generate | hsmc-macros/src/codegen.rs:2640-2656 | A machine comes out under the same condition, valid and in the initial configuration |
| Generator.Drive | hsmc-macros/src/codegen.rs:2737-2889 | Over any sequence of sends, steps and flag reads, the table-driven machine is in the configuration the reference interpreter reaches |
| SmallSteps.NextIsFixed | hsmc/src/journal.rs:72-158 | At any moment of the small steps either only a call can come next, or exactly one journal entry |
| SmallSteps.TranscriptIsUnique | hsmc/src/journal.rs:72-158 | Two transcripts with the same calls that come to rest are the same |
| Playing.RunActPlays | hsmc-macros/src/codegen.rs:2970-3003 | An action adds one entry per emit, queued exactly while there is room and none has failed since the flag was taken, goes on by each result, and leaves the context it ends with |
| Playing.EnterPlays | hsmc-macros/src/codegen.rs:3145-3161 | Entering adds the state's entry actions, its timers at full duration and its durings, in the chart's order, and makes it the innermost state |
| Playing.ExitPlays | hsmc-macros/src/codegen.rs:3233-3250 | Exiting cancels durings and timers, then adds the exit actions in order |
| Playing.TravelPlays | hsmc-macros/src/codegen.rs:3051-3081 | A transition adds the exits and enters of the route and nothing else |
| Playing.FollowPlays | hsmc-macros/src/codegen.rs:3191-3211 | Defaults fire as the chart declares them, each only on a freshly entered state |
| Playing.FirePlays | hsmc-macros/src/codegen.rs:2913-2929 | A handler's transition is its firing, its route, the defaults of an entered target, its completion |
| Playing.RunDeclaredPlays | hsmc-macros/src/codegen.rs:2897-2930 | Handlers run as declared, actions being given the event received |
| Playing.DeliverPlays | hsmc-macros/src/codegen.rs:2759-2794 | An event is delivered to the innermost state with a handler for its number, or dropped |
| Playing.FireTimerPlays | hsmc-macros/src/codegen.rs:1210-1226 | The next expired timer, deepest first, is taken out, armed again exactly if the chart has it repeat, and handled by its own state |
| Playing.ShutdownPlays | hsmc-macros/src/codegen.rs:3294-3312 | The end exits the active path innermost first and empties the queue |
| Transcripts.StepPlays | hsmc-macros/src/codegen.rs:2737-2799 | A step adds to the journal exactly what the chart makes due, one entry after the other, and rests in the configuration these lead to |
| Transcripts.RunPlays | hsmc-macros/src/codegen.rs:2737-2889 | The transcript of any run plays by the small steps, to the run's context, active path, queue, timers and flags |
| Transcripts.RunIsTheOnlyTranscript | hsmc-macros/src/codegen.rs:2737-2889 | It is the only one: any transcript with the same calls that comes to rest has the run's journal and ends in the run's configuration |
| Transcripts.EntryRunsItsActions | hsmc-macros/src/codegen.rs:3145-3161 | In every run's journal, after a state's entry begins come, apart from emits, exactly its entry actions in order, its timers and durings, and then its entry |
| Transcripts.ExitRunsItsActions | hsmc-macros/src/codegen.rs:3233-3250 | After a state's exit begins come exactly the cancelling of durings and timers, its exit actions in order, and then its exit |
| Transcripts.ReceiptIsScripted | hsmc-macros/src/codegen.rs:2750-2794 | A step that takes an event shows its receipt and then the end, a drop, or a delivery followed by the declared actions of that state in order and its transition |
| Transcripts.EventGoesWhereItShould | hsmc-macros/src/codegen.rs:2750-2794 | A step that takes an event receives it under its own variant; the terminate event ends the machine, any other goes to the innermost active state with a handler declared for it, and is dropped exactly when there is none; variants the chart does not name are dropped as 65535 |
| Transcripts.DeliveryRunsTheHandlers | hsmc-macros/src/codegen.rs:2897-2930 | After a delivery come, apart from emits, exactly the actions the state declares for the event, in order, and its transition if it declares one |
| Transcripts.FiringIsScripted | hsmc-macros/src/codegen.rs:1210-1226 | A step that fires a timer shows its firing, its arming at full duration exactly when the chart has it repeat, then what its state declares for it, in order |
| Keeps.EnterInv | hsmc-macros/src/codegen.rs:3145-3161 | Entering keeps the journal grammar, queue account, timer ownership and clocks |
| Keeps.ExitInv | hsmc-macros/src/codegen.rs:3233-3250 | Exiting keeps them, and leaves no timer of the exited state |
| Keeps.TravelInv | hsmc-macros/src/codegen.rs:3051-3081 | A transition's moves are exactly the specified route |
| Keeps.FollowInv | hsmc-macros/src/codegen.rs:3191-3211 | Default transitions are brackets directly inside the handler's transition that caused them, or in the start step, and their moves are fixed by the chart |
| Keeps.DeliverInv | hsmc-macros/src/codegen.rs:2759-2794 | Delivering an event keeps all invariants; its moves are those of the handler found by bubbling |
| Keeps.FireTimerInv | hsmc-macros/src/codegen.rs:1210-1226 | A firing timer belongs to an active state; all invariants are kept |
| Runs.StepRest | hsmc-macros/src/codegen.rs:2737-2799 | Every step keeps all invariants, and receives, fires and moves exactly what chart, path, queue head and due timer say |
| Theorems.RunReads | hsmc-macros/src/codegen.rs:2737-2889 | After any run, reading its log gives exactly the machine's state; the log's entries are the journal |
| Theorems.JournalReplaysToActivePath | hsmc/src/journal.rs:72-158 | Every journal is a well-nested bracket word with equal labels, in phases from start to end, and replaying entries and exits gives the root-to-innermost path; each entered state's parent, and each exited state, is the stack top |
| Nesting.DefaultsNest | hsmc-macros/src/codegen.rs:3191-3211 | Every default fired in a run is one the innermost state declares; after the start step it lies directly inside the still open transition of a handler fired earlier |
| Nesting.Enclosing | hsmc-macros/src/codegen.rs:2913-2929 | In an accepted journal, an open outermost transition after the start step was opened by a handler's firing and has been open since |
| Theorems.QueueIsConserved | hsmc-macros/src/codegen.rs:2750-2757 | The events that came in are those taken out followed by the queue, until termination, after which they begin with those taken out; the log shows them by variant; the queue never exceeds capacity; the flag says exactly whether an emit failed since it was taken, and none succeeded after one that failed |
| Theorems.StepReceivesHead | hsmc-macros/src/codegen.rs:2750-2751 | A step takes out the event that headed the queue before it exactly when the machine stands in some state and no timer is due, and nothing else: never an event emitted in that step |
| Theorems.MovesIgnoreActions | hsmc-macros/src/codegen.rs:2737-2799 | Two runs of one chart, with any two sets of actions, contexts and pasts, that agree on active path, timers and variant of the queue's head add the same exits and entries in the next step |
| Theorems.TimerTableIsExact | hsmc/src/lib.rs:835-921 | In every reachable state entries have distinct keys, belong to active states owning them, and show the duration less the time since arming; if no root chain owns more timers than the table holds, an entry is there exactly while the journal shows the timer armed |
| Arming.EnterAbout | hsmc-macros/src/codegen.rs:3153-3157 | After a state is entered, the journal's last word on each timer it owns is its arming at full duration; other timers are not mentioned |
| Arming.OwnedTimersWereArmed | hsmc-macros/src/codegen.rs:3153-3157 | In every run, the journal's last word on each timer of an active state is its arming at full duration, or its firing if it does not repeat |
| Arming.ClockRunsSinceArmed | hsmc/src/lib.rs:835-880 | A timer's clock runs exactly while the journal's last word on it is its arming |
| Arming.OwnedTimersRun | hsmc/src/lib.rs:835-921 | In every run, if no root chain owns more timers than the table holds, each timer of an active state has its entry, unless it does not repeat and has fired since it was last armed |
| Arming.FiredTimerComesBackIffItRepeats | hsmc-macros/src/codegen.rs:1216-1222 | A step that fires a timer whose handlers are all actions takes its entry out of the table and puts it back at full duration exactly when the chart has the timer repeat; nothing else changes beyond the time passed |
| Theorems.FiresExactlyWhenDue | hsmc-macros/src/codegen.rs:1210-1226 | A step adds one timer to those fired in the journal exactly when the shortest time left is at most what elapsed, in low 64 bits, and none otherwise; that timer's state is active and handles it, and since it was armed the low 64 bits of its duration have passed, which is all of it below 2^64 ns |
| Theorems.OwnedIsHandled | hsmc-macros/src/codegen.rs:3335-3339 | A state handles every timer it owns, so a firing timer always finds its handlers |
| Theorems.DeadlineHolds | hsmc-macros/src/codegen.rs:2746-2798 | The deadline a step returns is still the shortest time left at the next step, whatever is sent or read in between |
| Theorems.FiresIffDeadlinePassed | hsmc-macros/src/codegen.rs:2746-2798 | A step adds to the timers fired in the journal if and only if the previous step returned a deadline and the low 64 bits of what elapsed reach it, whatever was sent or read in between |
| Theorems.EndsIffTerminates | hsmc-macros/src/codegen.rs:2753-2757 | A step ends the machine exactly when it stands in some state, no timer is due and the terminate event heads the queue |
| Theorems.TerminateEndsEverything | hsmc-macros/src/codegen.rs:3294-3312 | A received terminate event adds to the journal's moves exactly the exits of the active path, innermost first through the root, leaves queue and timers empty, and no later step or send has any effect |
| RestingStates.DefaultsFollowedAreFew | hsmc-macros/src/codegen.rs:3191-3211 | At most n - 1 defaults fire in a row in a chart of n states, whatever the actions do, and the resting state is fixed by the chart |
| RestingStates.DefaultChain | hsmc-macros/src/codegen.rs:3203-3209 | On the chain of defaults followed, each but the last enters the next state; the last leads to the resting state, which has a default only if that last one led up to it; with nothing followed, the state has no default |
| Settling.FireRests | hsmc-macros/src/codegen.rs:2913-2929 | A transition rests where its last followed default leads, or at its target, and that transition is the last one fired in the journal |
| Settling.RestHasDefaultOnlyIfUp | hsmc-macros/src/codegen.rs:3203-3209 | After any transition, the resting state has a default only if the last transition fired, its own or a default's, went up to it |
| Settling.RunSettles | hsmc-macros/src/codegen.rs:3191-3211 | In every run, the machine rests where the last fired transition led, and the state has a default only if that was an up-transition; before any, it rests at a root without a default |
| RestingStates.TravelSparesCommon | hsmc-macros/src/codegen.rs:3051-3081 | Common ancestors are neither exited nor entered, and their timer entries stay as they were |
| Capacity.EnterArms | hsmc-macros/src/codegen.rs:3153-3157 | Entering a state appends entries for its timers in order, each at full duration, as far as there is room; all have entries exactly when all fit |
| Capacity.ExitToSurvivors | hsmc/src/lib.rs:859-863 | Leaving states removes exactly their entries and keeps the others in order |
| Capacity.TravelArmsIffFits | hsmc-macros/src/codegen.rs:3051-3081 | After any transition the table holds the entries of the states not left, then the timers of the states entered at full duration, as far as there is room; all the latter have entries if and only if they fit beside the former |
| Capacity.FittingTravelArmsAll | hsmc-macros/src/codegen.rs:3153-3157 | Where the target's root chain owns no more timers than the table holds, no push is lost: every timer of every state entered starts at its full duration |
| Capacity.OverfullChainLosesATimer | hsmc-macros/src/codegen.rs:772-773 | In every run, where the active chain owns more timers than the table holds, some timer owned by an active state has no entry |
| TimerFacts.StartFresh | hsmc/src/lib.rs:841-854 | Arming a key that is not in the table appends it if there is room and changes nothing else, keeping keys distinct |
| TimerFacts.SwapRemoveOk | hsmc/src/lib.rs:914-921 | Removing the fired entry keeps keys distinct and owned, and leaves no entry of its key |
| Keeps.OwnToArm | hsmc-macros/src/codegen.rs:3153-3157 | None of the timers an entered state is about to arm is in the table: arming on entry never resets an entry |
| Sharing.SharedIsReady | hsmc-macros/src/codegen.rs:772-773 | A concrete chart of two nested states sharing one duration passes validation |
| Sharing.SharedLosesATimer | hsmc/src/lib.rs:849-853 | On that chart, the machine's first step rests in the nested state with a timer unarmed, none having fired |

## Left out

- Async `run()` loops, channels, senders and the execution of `during:` futures: scheduling over libraries outside the repository. Durings appear as counted journal markers.
- Parsing, spans, error wording, the rendered chart and name tables, trace output: presentation.
- Per-parse checks of `validate_parse_tree` (one `default`, one `terminate`, placement) and the field-borrowing checks on durings: facts about one body each.
- Event payloads and the checks that bindings of one action or variant agree: events are opaque values with a variant number.
- The chart fingerprint: `Started` carries an arbitrary number.
- The arms of during futures per resting state: part of the async loops.
- The inside of the bounded containers: queue and table are sequences with a capacity.
- `HsmcError` values other than the full queue and the ended machine: not produced by the modelled operations.
- Lowering.Ir.LowerBody: ids are positions here, while the code casts them to `u16` and depths to `u8`; `Tables.FewStates` shows that every chart whose tables come out has fewer than 256 states, and `Frontend.CastsKeepApartIffFew` when the ids of other tables start over, but lowering more than 65,536 states or actions is not modelled with wrapped ids.
- Lowering.Ir.InternAction: the refusal of one action name with and without event payload, or with different payloads, is left out with the payloads, and the 16-bit cast of the id is applied in `Frontend.CastsKeepApartIffFew` instead.
- Lowering.Ir.InternEvent: conflicts of payload kind and field count are left out with the payloads.
- Lowering.Ir.ClassifyTarget: the refusal of payload bindings on a transition target is left out with the payloads.
- Lowering.Ir.HasUniqueNames: the field-name checks on durings beside it are left out with their fields.
- Dispatch.ComputeEventDispatch: beyond 65,535 events the declared array length is not met and the generated code does not compile; that is modelled as no table.
- Generator.Generate: a chart naming more than 65,536 distinct durations or actions gets a machine here with the ids apart, while the code's 16-bit ids start over (`Frontend.CastsKeepApartIffFew`).
- Generator.Drive: the same; runs of such a chart are not modelled with colliding ids.
- Frontend.TargetsResolve: names are compared as plain character sequences; raw identifiers are not modelled.
- Lowering.Ir.InternDuration: returns the position before its 16-bit cast; two spellings of one duration are different keys, as in the code; what a spelling evaluates to is a parameter.
- Machines.Machine.Dispatch: bounded by `patience` steps, because actions that always emit can keep the original looping for ever; `Reference.PatienceIsNoMatter` shows the bound does not matter where the original ends. The priming step of a fresh machine is the first turn of the loop here, which makes the same calls since the queue is then not empty.
- Machines.Machine.RunAction: an action sees the context it was called with and hands back the final one; the context in between its emits is not observable.
- Machines.Machine.EnterState: the generated constants for entries, exits, owned timers and durings are read from the chart instead of match arms.
- Validate.ValidateChart: names are no longer part of the chart it takes, so their uniqueness is `Lowering.Ir.HasUniqueNames`; the field-borrowing checks on durings are left out, since durings are only counted.
- The order of sends before stepping against repeated `dispatch`: they differ when actions emit, and no equality is claimed.
