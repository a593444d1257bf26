# gem5 event managers, X86 processors and SPEC run commands, in Dafny

This project models three parts of a set of gem5 configuration scripts.

- **The event managers** (util/event_managers/). An `EventCoordinator`
  owns a list of event managers and turns gem5's exit events (MAX_INSTS,
  WORKBEGIN, WORKEND, ...) into calls of their handler generators. It
  schedules the next MAX_INSTS exit at the earliest instruction count any
  manager asks for. Four managers are modelled:
  - `PeriodicROIManager` samples regions of interest (ROIs) through the
    phases fast-forward, warm-up, ROI, fast-forward, ...;
  - `TakeCheckpointsManager` takes a checkpoint at the start of the ROI
    and then periodically;
  - `RestoreCheckpointManager` warms up after a restore, records one ROI
    and stops;
  - `SimpleROIManager` switches processors around one ROI.
- **The processors** (components/processors/): a fixed X86 processor and a
  switchable one that moves between a "start" and a "switch" set of cores.
- **The SPEC run command** (scripts/util/spec.py): the first command line
  of a `specrun.sh` script, and the constructor of `SpecCommand`, which
  rewrites the command's tokens into paths.

## How the model is built

- **Managers as pure step functions.** Each manager's handlers are pure
  functions (periodic.dfy, take.dfy, restore.dfy, simple.dfy) from the
  manager's configuration, its state and the point where its generator is
  suspended (`Resume`). Each returns a `Reaction`: the new state, the new
  resume point, the side effects in order and the value yielded.
  - A generator that has already yielded its last value raises
    StopIteration (`Err(StopIteration)`).
  - The periodic MAX_INSTS generator, resumed after its `yield True`, falls
    through to `yield False` (`AfterStopYield`).
- **Side effects as values.** The side effects are `Effect` values:
  statistics dump and reset, checkpoint, processor switch and the
  coordinator's `reset_stats`. Their meaning on gem5's state (`Env`) is
  `Apply` in handlers.dfy.
- **Coordinator as a pure world.** coordination.dfy models the coordinator
  as a pure `World`: the managers' snapshots, their handler generators, the
  environment and the cycle carry.
  - `DispatchFrom` is the loop shared by `_handle_max_insts` and
    `_handle_unscheduled`.
  - `Scheduled` and `ScheduleError` are `_schedule`.
- **Classes that mirror the world.** event_managers.dfy holds the classes,
  whose fields are updated in place. These are `EventCoordinator`, the
  manager classes and the base class fields of `EventManager`. Each method
  on the coordinator takes the pure world it mirrors as a ghost parameter
  (`Mirrors(w)`), and its contract is stated against that world.
  - The managers' steps are taken through a ghost `next` that agrees with
    `Step` (`IsStep`), which `DispatchStepper` ties back to `Dispatch`.
- **gem5 as explicit objects.** The `m5` module's globals are an explicit
  `M5` object (gem5.dfy): `simInsts` and a trace of dumps, resets and
  checkpoints. gem5's `Simulator` is an object that records the
  instruction counts passed to `schedule_max_insts`.
- **Behaviour modelled as written.**
  - The coordinator's handler for events other than MAX_INSTS ORs each
    manager's yield with `True`, so it yields True whenever any manager
    handles the event (`Coordination.UnscheduledDispatch`).
  - The token rewrite in spec.py finds each token's first occurrence with
    `index`, so an earlier token that was already rewritten can be
    rewritten again (`SpecRun.RewriteRereadsEarlierToken`).
- **Files as parameters.** spec.py's file system access is passed in:
  - `text` is the content of `specrun.sh`;
  - `specrunDir` is the directory `get_specrun_file` found, if any;
  - `onDisk` is the `exists()` test;
  - `resolve` is the text of `specrun_cwd / token`.

## Model

| member | source | states |
|---|---|---|
| EventTimes.Add | util/event_managers/event_manager.py:60-85 | each unit of the sum is defined exactly when both operands define it, and is then their sum |
| EventTimes.AddCommutative | util/event_managers/event_manager.py:60-85 | the sum of event times does not depend on the operand order |
| EventTimes.AddAssociative | util/event_managers/event_manager.py:60-85 | the sum of event times does not depend on grouping |
| EventTimes.AddUnsetIsUnset | util/event_managers/event_manager.py:60-85 | adding the all-undefined time gives the all-undefined time |
| EventTimes.ClosestIsEarliest | util/event_managers/event_manager.py:180-199 | the scan yields, per unit, a value that some event defines and that no event undercuts, and is undefined exactly when no event defines that unit |
| EventTimes.ClosestPrefix | util/event_managers/event_manager.py:182-199 | one more event in the scan merges into the closest event so far |
| Coordination.CurrentTime | util/event_managers/event_manager.py:157-173 | all three units are defined; all zero before the simulator is set and instantiated, else carry plus `simInsts`, cycle carry and tick 0 |
| Coordination.ScheduledIsEarliest | util/event_managers/event_manager.py:175-210 | a MAX_INSTS exit is scheduled if and only if a simulator is set and some manager has an instruction trigger; it is one manager's trigger and no later than any |
| Coordination.ScheduleErrorCases | util/event_managers/event_manager.py:212-216 | `_schedule` raises NotImplementedError if and only if some manager has a cycle or tick trigger, with the cycle message whenever a cycle trigger exists |
| Coordination.FreshAll | util/event_managers/event_manager.py:136-138 | one fresh handler map per manager, keyed by exactly the events it handles, each at its start |
| Coordination.RegisterWellformed | util/event_managers/event_manager.py:128-141 | appending fresh handlers keeps every manager's handlers keyed by its events and at valid resume points, on the first or a later registration |
| Coordination.DispatchFromAnyCurr | util/event_managers/event_manager.py:256-280 | for events other than MAX_INSTS the dispatch does not depend on the current instruction count |
| Coordination.DispatchStepper | util/event_managers/event_manager.py:218-280 | every stepper that agrees with the managers' steps dispatches a well-formed world exactly as the managers' own steps do |
| Coordination.DispatchFromSnaps | util/event_managers/event_manager.py:228-248 | after a completed dispatch each due manager holds exactly its step's new state and every other manager is unchanged |
| Coordination.DispatchFromHandlers | util/event_managers/event_manager.py:228-248 | after a completed dispatch only the due managers' generators moved, each to its step's resume point |
| Coordination.DispatchFromEffects | util/event_managers/event_manager.py:228-248 | the effects of a completed dispatch are the due managers' effects, in list order |
| Coordination.DispatchFromResult | util/event_managers/event_manager.py:228-274 | the yield of a completed dispatch is the OR of the due managers' yields for MAX_INSTS, and whether any manager handles the event otherwise |
| Coordination.MaxInstsDispatch | util/event_managers/event_manager.py:218-254 | the registered handlers cover every manager and every step completed; a manager that is not due (handles MAX_INSTS with a trigger at or before the current count) keeps its state and generators; the yield is True if and only if some due manager yielded True |
| Coordination.UnscheduledDispatch | util/event_managers/event_manager.py:256-280 | for other events the yield is True if and only if some manager handles the event, whatever the managers yield |
| Coordination.DispatchBeforeRegisterFails | util/event_managers/event_manager.py:228-230 | a dispatch that reaches a manager without handler generators (register not called) raises |
| Coordination.DispatchOkRegistered | util/event_managers/event_manager.py:265-266 | a completed dispatch implies every manager has handler generators |
| Handlers.ValidateSimulator | util/event_managers/event_manager.py:361-376 | passes if and only if coordinator and simulator are set and the simulator is instantiated; otherwise raises the ValueError for the first check that fails |
| Handlers.ApplyAllNeverStops | util/event_managers/event_manager.py:339-359 | no side effect raises StopIteration, so only a generator itself does |
| Handlers.SwitchesAppend | util/event_managers/event_manager.py:339-359 | processor switches add up over consecutive effect lists |
| Handlers.ApplyAllAppend | util/event_managers/event_manager.py:339-359 | performing two effect lists in turn is performing their concatenation, and a failure in the first ends there |
| Handlers.ApplyAllSwitches | util/event_managers/event_manager.py:339-359 | effects keep coordinator and simulator presence; a switchable processor's `onStart` flag flips exactly when an odd number of switches ran, and its switch count rises by that number |
| Handlers.CoordinatorResetKeepsInstructionCount | util/event_managers/event_manager.py:143-173 | `reset_stats` keeps the current instruction count (carry plus `simInsts`) while zeroing `simInsts` |
| ManagerSpecs.Step | util/event_managers/event_manager.py:113-126 | a step keeps the manager's class and configuration and leaves its generator at a valid resume point |
| ManagerSpecs.FreshHandlers | util/event_managers/roi/periodic.py:446-455 | fresh generators are keyed by exactly the events the manager handles, each at its start |
| PeriodicROI.SimarglibInterval | util/event_managers/roi/periodic.py:94-114 | a value that is not a float, or is negative, raises ValueError; otherwise the result is that many millions of instructions, truncated to a whole number |
| PeriodicROI.MakeConfig | util/event_managers/roi/periodic.py:154-179 | succeeds if and only if every interval is available; each is the explicit argument when given, else exactly SimarglibInterval of simarglib's value; the ROI limit and `continue_sim` likewise; a failure is a ValueError |
| PeriodicROI.Initial | util/event_managers/roi/periodic.py:182-193 | a fresh manager starts in FF_INIT scheduling the initial fast-forward when it is positive, otherwise in FF_WORK scheduling the sampling fast-forward |
| PeriodicROI.MaxInsts | util/event_managers/roi/periodic.py:195-329 | a MAX_INSTS step always leaves the generator at one of its two resume points, so it never raises StopIteration |
| PeriodicROI.MaxInstsPhases | util/event_managers/roi/periodic.py:262-327 | FF_INIT to FF_WORK without a switch, FF_WORK to WARMUP with one, WARMUP to ROI with a reset, ROI to FF_WORK; each schedules the next phase's interval |
| PeriodicROI.MaxInstsStopsExactlyAtLimit | util/event_managers/roi/periodic.py:206-258 | MAX_INSTS yields True if and only if an ROI ends with the ROI limit reached and `continue_sim` unset, and then leaves the next event alone |
| PeriodicROI.AfterStopYieldsFalse | util/event_managers/roi/periodic.py:256-329 | the call after a stop yields False and changes nothing |
| PeriodicROI.MaxInstsSwitches | util/event_managers/roi/periodic.py:221-297 | MAX_INSTS switches the processor exactly on leaving FF_WORK and on leaving an ROI |
| PeriodicROI.WorkEndSwitches | util/event_managers/roi/periodic.py:385-443 | WORKEND switches back exactly from an ROI or a warm-up |
| PeriodicROI.CompletedRoisCount | util/event_managers/roi/periodic.py:206-443 | the ROI count rises by one exactly when an ROI ends, through MAX_INSTS or WORKEND, is zeroed by WORKBEGIN and changes in no other way |
| PeriodicROI.WorkEndIdles | util/event_managers/roi/periodic.py:385-443 | WORKEND always moves to NO_WORK, keeps the next event, ends with the coordinator's statistics reset and yields False |
| PeriodicROI.WorkBeginSchedules | util/event_managers/roi/periodic.py:331-383 | WORKBEGIN raises if and only if the pending event has no instruction count; otherwise FF_INIT when `init_ff` is truthy, else FF_WORK, adding that interval to the pending count |
| PeriodicROI.MaxInstsKeepsCoherence | util/event_managers/roi/periodic.py:195-329 | MAX_INSTS keeps the detailed cores active exactly in WARMUP and ROI |
| PeriodicROI.WorkEndKeepsCoherence | util/event_managers/roi/periodic.py:385-443 | so does WORKEND |
| PeriodicROI.WorkBeginKeepsCoherence | util/event_managers/roi/periodic.py:331-383 | so does WORKBEGIN when the fast cores are active |
| PeriodicROI.MaxInstsKeepsProcessorCoherent | util/event_managers/roi/periodic.py:195-329 | on a switchable processor that matched the phase, a completed MAX_INSTS step leaves it matching the new phase |
| PeriodicROI.WorkEndKeepsProcessorCoherent | util/event_managers/roi/periodic.py:385-443 | the same for WORKEND |
| PeriodicROI.MaxInstsRunSplit | util/event_managers/roi/periodic.py:195-329 | a + b consecutive MAX_INSTS events are a events and then b more |
| PeriodicROI.Round | util/event_managers/roi/periodic.py:206-301 | from FF_WORK three events are warm-up, ROI and back to FF_WORK with one more completed ROI; only the ROI's end can stop |
| PeriodicROI.RoundsBelowLimit | util/event_managers/roi/periodic.py:206-301 | n rounds below the ROI limit complete n ROIs without a stop and end in FF_WORK |
| PeriodicROI.LastRound | util/event_managers/roi/periodic.py:225-256 | the round that reaches the limit stops the run at its ROI end |
| PeriodicROI.RoundsThenStop | util/event_managers/roi/periodic.py:206-301 | with n + 1 ROIs to go, n rounds pass without a stop and the (3n + 3)-th event stops |
| PeriodicROI.StopsAfterKRois | util/event_managers/roi/periodic.py:182-329 | with `num_rois` = k > 0, no `continue_sim` and a positive initial fast-forward, a fresh manager stops at the (1 + 3k)-th event and at no earlier one |
| PeriodicROI.ContinueSimNeverStops | util/event_managers/roi/periodic.py:225-238 | with `continue_sim` set, MAX_INSTS never stops the simulation |
| PeriodicROI.NoLimitNeverStops | util/event_managers/roi/periodic.py:225-258 | without an ROI limit MAX_INSTS never stops the simulation |
| PeriodicROI.TwoRoiScenario | util/event_managers/roi/periodic.py:182-329 | a concrete run with two ROIs goes through its phases and intervals and stops at the seventh event |
| TakeCheckpoints.Initial | util/event_managers/checkpoint/take.py:49-52 | no checkpoint taken and no event pending |
| TakeCheckpoints.MakeConfigAsWritten | util/event_managers/checkpoint/take.py:55-66 | as written, every truthy interval raises AttributeError; only an unset or zero interval gets through, as 0 |
| TakeCheckpoints.MakeConfig | util/event_managers/checkpoint/take.py:55-66 | intended: an interval below one exits with status 1; otherwise a whole number of millions, 0 when unset or zero |
| TakeCheckpoints.AsWrittenRejectsEveryInterval | util/event_managers/checkpoint/take.py:55-66 | the two agree if and only if no interval is given; `--interval 10` raises as written |
| TakeCheckpoints.CheckpointStopRule | util/event_managers/checkpoint/take.py:82-128 | each MAX_INSTS or WORKBEGIN takes and counts one checkpoint, yields False and schedules the next one if and only if more are wanted, else yields True with the next event untouched |
| TakeCheckpoints.OneShotHandlers | util/event_managers/checkpoint/take.py:105-140 | WORKEND always stops; WORKBEGIN and WORKEND each run once per generator and raise StopIteration after |
| TakeCheckpoints.MaxInstsRunStops | util/event_managers/checkpoint/take.py:82-103 | the i-th of n MAX_INSTS calls stops if and only if its checkpoint number reaches the maximum; n calls count n checkpoints |
| TakeCheckpoints.StopsAtKthCheckpoint | util/event_managers/checkpoint/take.py:95-128 | with `max_checkpoints` = k > 0 the run stops exactly at the k-th checkpoint, counting the start-of-ROI one |
| TakeCheckpoints.ConfiguredInterval | util/event_managers/checkpoint/take.py:95-100 | with `--interval n`, each checkpoint that is not the last schedules the next n million instructions on |
| RestoreCheckpoint.MakeConfig | util/event_managers/checkpoint/restore.py:53-73 | a negative warm-up or an ROI below one exits with status 1; unset or zero becomes 0; otherwise millions of instructions truncated |
| RestoreCheckpoint.InitializeSchedules | util/event_managers/checkpoint/restore.py:75-101 | with a warm-up its end is scheduled; otherwise statistics are reset and the ROI's end is scheduled when positive |
| RestoreCheckpoint.MaxInsts | util/event_managers/checkpoint/restore.py:125-156 | a completed MAX_INSTS step leaves the generator at one of its valid resume points |
| RestoreCheckpoint.MaxInstsSequence | util/event_managers/checkpoint/restore.py:125-156 | the MAX_INSTS generator yields False then True with a warm-up, True at once without one, and raises after |
| RestoreCheckpoint.WorkEndStops | util/event_managers/checkpoint/restore.py:113-123 | WORKEND dumps, resets and stops, once |
| RestoreCheckpoint.MaxInstsPathDumpsAfterReset | util/event_managers/checkpoint/restore.py:75-156 | when MAX_INSTS events end the run there is exactly one dump, the last effect but one, after the reset entering the ROI |
| RestoreCheckpoint.WorkEndDuringWarmupDumpsFirst | util/event_managers/checkpoint/restore.py:113-123 | a WORKEND during the warm-up dumps before any reset |
| SimpleROI.HandlersSwitchOnceAndContinue | util/event_managers/roi/simple.py:34-63 | each handler switches exactly once, never stops and is ready for another call; WORKBEGIN starts with the switch and WORKEND with the dump |
| SimpleROI.BeginThenEndRestoresProcessor | util/event_managers/roi/simple.py:34-63 | a completed WORKBEGIN then WORKEND on a switchable processor returns it to its cores, two switches later |
| EventManagers.EventManagerBase.SetNextEvent | util/event_managers/event_manager.py:302-308 | the interval is stored as given and nothing else changes |
| EventManagers.EventManagerBase.ClearNextEvent | util/event_managers/event_manager.py:310-312 | the next event becomes all-undefined |
| EventManagers.EventManagerBase.Register | util/event_managers/event_manager.py:332-337 | the coordinator is stored |
| EventManagers.EventManagerBase.GetCurrentTime | util/event_managers/event_manager.py:321-330 | all zero without a coordinator, else the coordinator's current time |
| EventManagers.EventManagerBase.SwitchProcessor | util/event_managers/event_manager.py:339-359 | validates the simulator, then switches a switchable processor and raises AttributeError for one without `switch` |
| EventManagers.PeriodicROIManager.constructor | util/event_managers/roi/periodic.py:134-193 | the state is the configuration's initial state |
| EventManagers.PeriodicROIManager.HandleMaxInsts | util/event_managers/roi/periodic.py:195-329 | the fields and gem5's state become what the MAX_INSTS step and its effects give, or the exception they raise |
| EventManagers.PeriodicROIManager.EndRoi | util/event_managers/roi/periodic.py:206-258 | the end of an ROI performs the step's effects in order: dump, count, switch, and at the limit a reset and a stop |
| EventManagers.PeriodicROIManager.HandleWorkBegin | util/event_managers/roi/periodic.py:331-383 | the fields become the WORKBEGIN step's state, or it raises as the step does |
| EventManagers.PeriodicROIManager.HandleWorkEnd | util/event_managers/roi/periodic.py:385-443 | the fields and gem5's state become what the WORKEND step and its effects give |
| EventManagers.TakeCheckpointsManager.constructor | util/event_managers/checkpoint/take.py:47-66 | no checkpoint taken and no event pending |
| EventManagers.TakeCheckpointsManager.HandleMaxInsts | util/event_managers/checkpoint/take.py:82-103 | performs the MAX_INSTS step: one checkpoint, counted, and its schedule |
| EventManagers.TakeCheckpointsManager.HandleWorkBegin | util/event_managers/checkpoint/take.py:105-128 | performs the WORKBEGIN step: reset, then one checkpoint; raises StopIteration when resumed again |
| EventManagers.TakeCheckpointsManager.HandleWorkEnd | util/event_managers/checkpoint/take.py:130-140 | performs the WORKEND step: dump, reset, stop; once |
| EventManagers.RestoreCheckpointManager.constructor | util/event_managers/checkpoint/restore.py:50-73 | no event pending |
| EventManagers.RestoreCheckpointManager.Initialize | util/event_managers/checkpoint/restore.py:75-101 | the next event and gem5's state become what `Initialize` gives |
| EventManagers.RestoreCheckpointManager.HandleMaxInsts | util/event_managers/checkpoint/restore.py:125-156 | performs the MAX_INSTS step at its resume point |
| EventManagers.RestoreCheckpointManager.HandleWorkEnd | util/event_managers/checkpoint/restore.py:113-123 | performs the WORKEND step at its resume point |
| EventManagers.SimpleROIManager.HandleWorkBegin | util/event_managers/roi/simple.py:34-47 | switches, then resets, yielding False, or raises as the switch does |
| EventManagers.SimpleROIManager.HandleWorkEnd | util/event_managers/roi/simple.py:49-63 | dumps, resets, then switches, yielding False, or raises as the switch does |
| EventManagers.EventCoordinator.constructor | util/event_managers/event_manager.py:94-111 | no simulator, no handlers, zero carries; the coordinator invariant holds |
| EventManagers.EventCoordinator.ResetStats | util/event_managers/event_manager.py:143-155 | without a simulator nothing changes; otherwise `simInsts` moves into the instruction carry and the statistics are reset |
| EventManagers.EventCoordinator.GetCurrentTime | util/event_managers/event_manager.py:157-173 | the pure world's current time |
| EventManagers.EventCoordinator.ClosestEvent | util/event_managers/event_manager.py:180-199 | the loop computes the earliest event per unit over the managers' next events |
| EventManagers.EventCoordinator.Schedule | util/event_managers/event_manager.py:175-216 | exactly the pure world's scheduled count is passed to the simulator, then it raises exactly the world's schedule error |
| EventManagers.EventCoordinator.RunPeriodic | util/event_managers/roi/periodic.py:446-455 | one `next()` performs the periodic manager's step for the event |
| EventManagers.EventCoordinator.RunTake | util/event_managers/checkpoint/take.py:76-80 | one `next()` performs the checkpoint-taking manager's step |
| EventManagers.EventCoordinator.RunRestore | util/event_managers/checkpoint/restore.py:108-111 | one `next()` performs the restoring manager's step |
| EventManagers.EventCoordinator.RunSimple | util/event_managers/roi/simple.py:29-32 | one `next()` performs the simple manager's step |
| EventManagers.EventCoordinator.Visit | util/event_managers/event_manager.py:228-248 | one loop iteration raises IndexError without handlers, else advances exactly as `DispatchFrom` does |
| EventManagers.EventCoordinator.DispatchAll | util/event_managers/event_manager.py:228-274 | the loop over the managers ends in the world and result `DispatchFrom` gives, or raises what it raises |
| EventManagers.EventCoordinator.HandleMaxInsts | util/event_managers/event_manager.py:218-254 | raises what the dispatch raises; otherwise the fields mirror the dispatched world, `_schedule` ran in it and the result is the dispatch's yield or the schedule error |
| EventManagers.EventCoordinator.HandleUnscheduled | util/event_managers/event_manager.py:256-280 | the same for an event other than MAX_INSTS, every handling manager running |
| EventManagers.EventCoordinator.Handle | util/event_managers/event_manager.py:113-126 | the generator for each event behaves as the handler above for that event |
| EventManagers.EventCoordinator.RegisterManagers | util/event_managers/event_manager.py:135-138 | every manager is linked to this coordinator and gets fresh handler generators appended, in list order, with its state kept |
| EventManagers.EventCoordinator.Attach | util/event_managers/event_manager.py:128-138 | the simulator is stored and the coordinator mirrors the registered world, well-formed |
| EventManagers.EventCoordinator.Register | util/event_managers/event_manager.py:128-141 | after registration exactly the registered world's scheduled count is passed to the simulator and its schedule error raised |
| Processors.CheckCoreCount | components/processors/custom_x86_processor.py:27-28 | the count passes if and only if it is set and positive, else AssertionError |
| Processors.BuildCores | components/processors/custom_x86_processor.py:31-37 | n cores with ids 0..n-1 of the given type |
| Processors.StopCores | components/processors/custom_x86_processor.py:49-57 | every core in order gets the same stop, or only the first when `core0_only` |
| Processors.CustomX86Processor.Create | components/processors/custom_x86_processor.py:20-39 | succeeds if and only if the core check passes, with those cores and no stops |
| Processors.CustomX86Processor.ScheduleMaxInsts | components/processors/custom_x86_processor.py:49-57 | appends one stop per core, or one for core 0, after the earlier stops |
| Processors.CustomX86SwitchableProcessor.constructor | components/processors/custom_x86_switchable_processor.py:50-77 | two core sets of the same size with ids 0..n-1, starting on the start set |
| Processors.CustomX86SwitchableProcessor.Create | components/processors/custom_x86_switchable_processor.py:42-48 | succeeds if and only if the core check passes |
| Processors.CustomX86SwitchableProcessor.Switch | components/processors/custom_x86_switchable_processor.py:87-94 | moves to the other core set by its key and flips the flag |
| Processors.CustomX86SwitchableProcessor.ScheduleMaxInsts | components/processors/custom_x86_switchable_processor.py:102-110 | appends one stop per active core, or one for the first, without switching |
| SpecRun.Lines | scripts/util/spec.py:62-63 | the file's lines: non-empty, each ending in a newline except possibly the last |
| SpecRun.LinesConcat | scripts/util/spec.py:62-63 | the lines joined give back the text, and no line holds a newline before its end |
| SpecRun.Split | scripts/util/spec.py:65 | `split()` gives non-empty words without whitespace |
| SpecRun.SplitJoin | scripts/util/spec.py:65 | splitting words joined by single spaces gives back the words |
| SpecRun.SplitSkips | scripts/util/spec.py:65 | leading whitespace does not change the words |
| SpecRun.SplitTrailing | scripts/util/spec.py:65 | trailing whitespace does not change the words |
| SpecRun.Strip | scripts/util/spec.py:64 | `strip()` leaves no whitespace at either end and is empty if and only if the line is all whitespace |
| SpecRun.StripSlice | scripts/util/spec.py:64 | `strip()` removes only whitespace, and only at the ends |
| SpecRun.StripSplit | scripts/util/spec.py:64-65 | stripping first does not change the words |
| SpecRun.FirstCommandIsFirst | scripts/util/spec.py:56-72 | a command is found if and only if some line holds one; it is the words of the first such line |
| SpecRun.CommandWords | scripts/util/spec.py:64-69 | a command line's words are its unstripped words, at least one, the first not starting with "#" |
| SpecRun.FirstCommandWords | scripts/util/spec.py:56-72 | a command found is non-empty and its first word does not start with "#" |
| SpecRun.RewriteTokens | scripts/util/spec.py:98-101 | the in-place loop gives the iterations' fold, keeps the length and keeps every "." |
| SpecRun.IndexOfFirst | scripts/util/spec.py:101 | `index` finds a token at the first position holding it |
| SpecRun.RewriteIsPositionwise | scripts/util/spec.py:98-101 | when no rewritten path is one of the tokens, every token is resolved at its own position |
| SpecRun.RewriteRereadsEarlierToken | scripts/util/spec.py:98-101 | otherwise `index` can rewrite an earlier token twice: ["x", "d/x"] becomes ["d/d/x", "d/x"] |
| SpecRun.NewSpecCommand | scripts/util/spec.py:76-106 | FileNotFoundError without the script, ValueError without a command or with an empty one; otherwise `bin` followed by `args` is the rewritten command |
| SpecRun.CommandNeverEmpty | scripts/util/spec.py:92-95 | the "Empty command" error cannot arise, since a command found has a word |

## Left out

- Printing and coloured console output in every handler: it has no effect on the modelled state.
- Floating point: the intervals given in millions of instructions are exact `real` values truncated toward zero; rounding of binary floats is not modelled.
- Results.Text: the AttributeError for a processor without `switch` reads "processor has no attribute 'switch'"; Python names the object's class there, which the model does not carry.
- PeriodicROI.SimarglibInterval: the simarglib lookup itself is a parameter (the value or its absence); the wording of the offending value in its messages is not rendered.
- EventManagers.EventCoordinator.constructor: requires the managers to be distinct objects, which the source does not check; the model assumes a manager is not listed twice.
- The state left behind after an exception: a raised exception ends the run, and the model states only which exception is raised.
- Coordination.Next: its guard for an event a manager does not handle, or an impossible resume point, cannot be reached in a well-formed world.
- EventManagers.EventCoordinator.RegisterManagers: `manager.register(self)` is the field assignment that EventManagerBase.Register performs, written inline.
- TakeCheckpointsManager's and RestoreCheckpointManager's constructors take the configuration MakeConfig gives; creating the checkpoint directory and reading simarglib are left out.
- Checkpoint directories and `m5.curTick()`: a checkpoint is an entry in the M5 trace without its path.
- `get_specrun_file` (scripts/util/spec.py:44-53): its directory iteration is replaced by its result, the optional `specrunDir`.
- File I/O in scripts/util/spec.py: reading `specrun.sh` (and any `open` error) is replaced by its content; text mode's newline translation is assumed already done.
- Path handling in scripts/util/spec.py: `pathlib` joins and `exists()` are the parameters `resolve` and `onDisk`; `Path(bin)` normalisation is not modelled.
- `SpecCommand.run`, `simulate` and `__str__` are not part of this model; only the constructor and `get_specrun_command` are.
- gem5 internals (the simulator loop, statistics, `simInsts`, processor switching) are stand-ins in gem5.dfy: `m5.stats.reset()` zeroing `simInsts` is assumed.
- The processors' CPU classes, memory mode and board incorporation are not modelled; core counts and types are parameters in place of simargs.
- The cycle carry of the coordinator is never increased by the source; the model keeps it as a field.

## Findings

| source | as written | input that shows it | evidently intended | confidence | as-written member | corrected member |
|---|---|---|---|---|---|---|
| util/event_managers/checkpoint/take.py:56-64 | the positivity guard reads `self._interval` before line 64 assigns it, so any truthy interval raises AttributeError | `--interval 10` | an interval below one exits with status 1, otherwise the interval counts millions of instructions | high, not executed | TakeCheckpoints.MakeConfigAsWritten | TakeCheckpoints.MakeConfig |
