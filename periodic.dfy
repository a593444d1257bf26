/**
 * The periodic ROI strategy of util/event_managers/roi/periodic.py as pure
 * step functions: an initial fast-forward, then rounds of fast-forward,
 * warm-up on the detailed processor and a region of interest (ROI) whose
 * statistics are dumped, until `num_rois` ROIs are done.
 */
module PeriodicROI {
  import opened Results
  import opened EventTimes
  import opened Handlers

  /** `Phase` (periodic.py:120-127). */
  datatype Phase = NoWork | FFInit | FFWork | Warmup | ROI

  /**
   * The manager's final configuration: the fast-forward, warm-up, ROI and
   * initial fast-forward intervals in instructions, the optional ROI limit
   * and whether to keep fast-forwarding once it is reached.
   */
  datatype Config = Config(ff: int, warmup: int, roi: int, initFF: int, numRois: Option<int>, continueSim: bool)

  /** `_current_phase`, `_completed_rois` and `_next_event`. */
  datatype State = State(phase: Phase, completedRois: int, nextEvent: EventTime)

  /** A value read from simarglib: argparse gives floats, ints, booleans or None. */
  datatype SimArg = FloatArg(f: real) | IntArg(i: int) | BoolArg(b: bool) | NoneArg

  /** The simarglib values the manager falls back on. */
  datatype SimArgs = SimArgs(
    ffInterval: SimArg, warmupInterval: SimArg, roiInterval: SimArg, initFFInterval: SimArg,
    numRois: Option<int>, continueSim: bool)

  /**
   * `get_simarglib_interval` (periodic.py:94-114): a non-negative float of
   * millions of instructions becomes a whole number of instructions; any
   * other value raises ValueError. Zero is accepted.
   */
  function SimarglibInterval(key: string, v: SimArg): (r: Result<int>)
    ensures r.Ok? <==> v.FloatArg? && v.f >= 0.0
    ensures r.Ok? ==> 0 <= r.value && r.value as real <= v.f * 1000000.0 < r.value as real + 1.0
    ensures r.Err? ==> r.error.ValueError?
  {
    match v
    case FloatArg(f) =>
      if f < 0.0 then Err(ValueError(Negative(key)))
      else Ok((f * 1000000.0).Floor)
    case _ => Err(ValueError(NotAFloat(key)))
  }

  /** An explicit argument wins; otherwise the simarglib interval. */
  function IntervalOr(given: Option<int>, key: string, v: SimArg): Result<int> {
    if given.Some? then Ok(given.value) else SimarglibInterval(key, v)
  }

  /**
   * The configuration `__init__` settles (periodic.py:154-179): each
   * interval is the explicit argument when given, else the simarglib value,
   * read in the order ff, warmup, roi, init_ff; the first invalid one raises.
   */
  function MakeConfig(ff: Option<int>, warmup: Option<int>, roi: Option<int>, initFF: Option<int>,
                      numRois: Option<int>, continueSim: Option<bool>, args: SimArgs): (r: Result<Config>)
    ensures r.Ok? <==>
      && IntervalOr(ff, "ff_interval", args.ffInterval).Ok?
      && IntervalOr(warmup, "warmup_interval", args.warmupInterval).Ok?
      && IntervalOr(roi, "roi_interval", args.roiInterval).Ok?
      && IntervalOr(initFF, "init_ff_interval", args.initFFInterval).Ok?
    ensures r.Ok? ==>
      && (ff.Some? ==> r.value.ff == ff.value)
      && (warmup.Some? ==> r.value.warmup == warmup.value)
      && (roi.Some? ==> r.value.roi == roi.value)
      && (initFF.Some? ==> r.value.initFF == initFF.value)
      && (ff.None? ==> r.value.ff == SimarglibInterval("ff_interval", args.ffInterval).value)
      && (warmup.None? ==> r.value.warmup == SimarglibInterval("warmup_interval", args.warmupInterval).value)
      && (roi.None? ==> r.value.roi == SimarglibInterval("roi_interval", args.roiInterval).value)
      && (initFF.None? ==> r.value.initFF == SimarglibInterval("init_ff_interval", args.initFFInterval).value)
      && r.value.numRois == (if numRois.Some? then numRois else args.numRois)
      && r.value.continueSim == (if continueSim.Some? then continueSim.value else args.continueSim)
    ensures r.Err? ==> r.error.ValueError?
  {
    match IntervalOr(ff, "ff_interval", args.ffInterval)
    case Err(e) => Err(e)
    case Ok(ffI) =>
      match IntervalOr(warmup, "warmup_interval", args.warmupInterval)
      case Err(e) => Err(e)
      case Ok(warmupI) =>
        match IntervalOr(roi, "roi_interval", args.roiInterval)
        case Err(e) => Err(e)
        case Ok(roiI) =>
          match IntervalOr(initFF, "init_ff_interval", args.initFFInterval)
          case Err(e) => Err(e)
          case Ok(initI) =>
            Ok(Config(ffI, warmupI, roiI, initI,
                      if numRois.Some? then numRois else args.numRois,
                      if continueSim.Some? then continueSim.value else args.continueSim))
  }

  /**
   * The state after `__init__` (periodic.py:182-193): the initial
   * fast-forward when its interval is positive, else straight to the
   * sampling fast-forward; no ROI completed yet.
   */
  function Initial(c: Config): (s: State)
    ensures s.completedRois == 0
    ensures c.initFF > 0 ==> s.phase == FFInit && s.nextEvent == Instructions(c.initFF)
    ensures c.initFF <= 0 ==> s.phase == FFWork && s.nextEvent == Instructions(c.ff)
  {
    if c.initFF > 0 then State(FFInit, 0, Instructions(c.initFF))
    else State(FFWork, 0, Instructions(c.ff))
  }

  /** `self._num_rois and self._completed_rois >= self._num_rois` (periodic.py:225). */
  predicate LimitReached(c: Config, completed: int) {
    Truthy(c.numRois) && completed >= c.numRois.value
  }

  /** The resume points the MAX_INSTS generator can be at. */
  predicate MaxInstsResume(g: Resume) {
    g == AtStart || g == AfterStopYield
  }

  /**
   * One `next()` of `_handle_max_insts` (periodic.py:195-329). Resumed after
   * its `yield True`, the generator falls through to `yield False` and
   * changes nothing; otherwise it acts on the current phase.
   */
  function MaxInsts(c: Config, s: State, g: Resume): (r: Reaction<State>)
    requires MaxInstsResume(g)
    ensures MaxInstsResume(r.resume)
  {
    if g == AfterStopYield then Reaction(s, AtStart, [], false)
    else
      match s.phase
      case ROI =>
        // dump, count the ROI, switch to the fast-forward processor
        var done := s.completedRois + 1;
        if LimitReached(c, done) then
          if c.continueSim then Reaction(State(FFWork, done, s.nextEvent), AtStart, [StatsDump, SwitchProcessor], false)
          else Reaction(State(FFWork, done, s.nextEvent), AfterStopYield,
                        [StatsDump, SwitchProcessor, CoordinatorResetStats], true)
        else Reaction(State(FFWork, done, Instructions(c.ff)), AtStart, [StatsDump, SwitchProcessor], false)
      case Warmup => Reaction(State(ROI, s.completedRois, Instructions(c.roi)), AtStart, [CoordinatorResetStats], false)
      case FFWork => Reaction(State(Warmup, s.completedRois, Instructions(c.warmup)), AtStart, [SwitchProcessor], false)
      case FFInit => Reaction(State(FFWork, s.completedRois, Instructions(c.ff)), AtStart, [], false)
      case NoWork => Reaction(State(NoWork, s.completedRois, Unset), AtStart, [], false)
  }

  /**
   * One `next()` of `_handle_workbegin` (periodic.py:331-383): the ROI count
   * starts over and the initial fast-forward (when `init_ff` is truthy) or
   * the sampling fast-forward is scheduled relative to the pending event.
   */
  function WorkBegin(c: Config, s: State): Result<Reaction<State>> {
    var phase := if c.initFF != 0 then FFInit else FFWork;
    var interval := if c.initFF != 0 then c.initFF else c.ff;
    if s.nextEvent.instruction.None? then Err(ValueError(NextEventNone))
    else Ok(Reaction(State(phase, 0, Instructions(s.nextEvent.instruction.value + interval)), AtStart, [], false))
  }

  /**
   * One `next()` of `_handle_workend` (periodic.py:385-443): an ROI in
   * progress is dumped and counted, the fast-forward processor is restored
   * from ROI or warm-up, statistics are reset and the manager idles.
   */
  function WorkEnd(c: Config, s: State): Reaction<State> {
    var inRoi := s.phase == ROI;
    var detailed := s.phase == ROI || s.phase == Warmup;
    Reaction(State(NoWork, if inRoi then s.completedRois + 1 else s.completedRois, s.nextEvent),
             AtStart,
             (if inRoi then [StatsDump] else []) + (if detailed then [SwitchProcessor] else []) + [CoordinatorResetStats],
             false)
  }

  /** The exit events this manager handles (periodic.py:446-455). */
  const Handled: set<ExitEvent> := {ExitEvent.MaxInsts, ExitEvent.WorkBegin, ExitEvent.WorkEnd}

  // ---------------------------------------------------------------------
  // Properties of one step
  // ---------------------------------------------------------------------

  /**
   * The phase order of MAX_INSTS: FF_INIT to FF_WORK without a switch,
   * FF_WORK to WARMUP, WARMUP to ROI, ROI to FF_WORK, each scheduling the
   * next interval; ROI schedules the fast-forward only below the limit; in
   * NO_WORK the next event is cleared.
   */
  lemma MaxInstsPhases(c: Config, s: State)
    ensures var r := MaxInsts(c, s, AtStart);
      && (s.phase == FFInit ==> r.state.phase == FFWork && r.state.nextEvent == Instructions(c.ff) && r.effects == [])
      && (s.phase == FFWork ==> r.state.phase == Warmup && r.state.nextEvent == Instructions(c.warmup))
      && (s.phase == Warmup ==> r.state.phase == ROI && r.state.nextEvent == Instructions(c.roi))
      && (s.phase == ROI ==>
            && r.state.phase == FFWork
            && r.state.nextEvent == (if LimitReached(c, s.completedRois + 1) then s.nextEvent else Instructions(c.ff)))
      && (s.phase == NoWork ==> r.state.phase == NoWork && r.state.nextEvent == Unset)
  {
  }

  /**
   * MAX_INSTS stops the simulation exactly when an ROI ends with the limit
   * reached and `continue_sim` unset; the stop leaves the next event alone.
   * With `continue_sim` it keeps the next event too but outputs False.
   */
  lemma MaxInstsStopsExactlyAtLimit(c: Config, s: State, g: Resume)
    requires MaxInstsResume(g)
    ensures var r := MaxInsts(c, s, g);
      && (r.yielded <==> g == AtStart && s.phase == ROI && LimitReached(c, s.completedRois + 1) && !c.continueSim)
      && (r.yielded ==> r.state.nextEvent == s.nextEvent && r.resume == AfterStopYield)
      && (g == AtStart && s.phase == ROI && LimitReached(c, s.completedRois + 1) && c.continueSim ==>
            r.state.phase == FFWork && r.state.nextEvent == s.nextEvent && !r.yielded)
  {
  }

  /** The call after a stop outputs False and changes nothing. */
  lemma AfterStopYieldsFalse(c: Config, s: State)
    ensures MaxInsts(c, s, AfterStopYield) == Reaction(s, AtStart, [], false)
  {
  }

  /** The processor is switched only on FF_WORK to WARMUP and on leaving an ROI. */
  lemma MaxInstsSwitches(c: Config, s: State, g: Resume)
    requires MaxInstsResume(g)
    ensures Switches(MaxInsts(c, s, g).effects) == (if g == AtStart && s.phase in {FFWork, ROI} then 1 else 0)
  {
  }

  /** WORKEND switches back exactly from ROI or warm-up. */
  lemma WorkEndSwitches(c: Config, s: State)
    ensures Switches(WorkEnd(c, s).effects) == (if s.phase in {ROI, Warmup} then 1 else 0)
  {
  }

  /**
   * `_completed_rois` rises by exactly one whenever an ROI ends, through
   * MAX_INSTS or WORKEND, is zeroed by WORKBEGIN, and changes in no other way.
   */
  lemma CompletedRoisCount(c: Config, s: State, g: Resume)
    requires MaxInstsResume(g)
    ensures MaxInsts(c, s, g).state.completedRois == s.completedRois + (if g == AtStart && s.phase == ROI then 1 else 0)
    ensures WorkEnd(c, s).state.completedRois == s.completedRois + (if s.phase == ROI then 1 else 0)
    ensures WorkBegin(c, s).Ok? ==> WorkBegin(c, s).value.state.completedRois == 0
  {
  }

  /** WORKEND always idles, resets statistics last and never stops the run. */
  lemma WorkEndIdles(c: Config, s: State)
    ensures var r := WorkEnd(c, s);
      r.state.phase == NoWork && !r.yielded && r.effects[|r.effects| - 1] == CoordinatorResetStats
      && r.state.nextEvent == s.nextEvent
  {
  }

  /**
   * WORKBEGIN raises when the pending event has no instruction count;
   * otherwise it enters FF_INIT when `init_ff` is truthy and FF_WORK
   * otherwise, adding that interval to the pending count.
   */
  lemma WorkBeginSchedules(c: Config, s: State)
    ensures WorkBegin(c, s).Err? <==> s.nextEvent.instruction.None?
    ensures WorkBegin(c, s).Ok? ==>
      var r := WorkBegin(c, s).value;
      && r.state.phase == (if c.initFF != 0 then FFInit else FFWork)
      && r.state.nextEvent == Instructions(s.nextEvent.instruction.value + (if c.initFF != 0 then c.initFF else c.ff))
      && r.effects == [] && !r.yielded
  {
  }

  // ---------------------------------------------------------------------
  // The processor follows the phase
  // ---------------------------------------------------------------------

  /** The starting (fast-forward) cores run exactly outside warm-up and ROI. */
  predicate Coherent(phase: Phase, onStart: bool) {
    onStart <==> phase !in {Warmup, ROI}
  }

  /**
   * MAX_INSTS keeps the processor coherent with the phase: whenever the
   * detailed cores are active the phase is WARMUP or ROI and conversely.
   */
  lemma MaxInstsKeepsCoherence(c: Config, s: State, g: Resume, onStart: bool)
    requires MaxInstsResume(g)
    requires Coherent(s.phase, onStart)
    ensures var r := MaxInsts(c, s, g);
      Coherent(r.state.phase, onStart == (Switches(r.effects) % 2 == 0))
  {
    MaxInstsSwitches(c, s, g);
    if g == AtStart {
      MaxInstsPhases(c, s);
    }
  }

  /** WORKEND does too. */
  lemma WorkEndKeepsCoherence(c: Config, s: State, onStart: bool)
    requires Coherent(s.phase, onStart)
    ensures var r := WorkEnd(c, s);
      Coherent(r.state.phase, onStart == (Switches(r.effects) % 2 == 0))
  {
    WorkEndSwitches(c, s);
  }

  /** WORKBEGIN does when the fast cores are active, as it never switches. */
  lemma WorkBeginKeepsCoherence(c: Config, s: State, onStart: bool)
    requires Coherent(s.phase, onStart) && onStart
    requires WorkBegin(c, s).Ok?
    ensures var r := WorkBegin(c, s).value;
      Coherent(r.state.phase, onStart == (Switches(r.effects) % 2 == 0))
  {
  }

  /**
   * The same on gem5's side: when a MAX_INSTS step's effects complete on a
   * switchable processor that matched the phase, the processor still
   * matches the new phase.
   */
  lemma MaxInstsKeepsProcessorCoherent(c: Config, s: State, g: Resume, env: Env)
    requires MaxInstsResume(g)
    requires env.processor.SwitchableCores? && Coherent(s.phase, env.processor.onStart)
    requires ApplyAll(MaxInsts(c, s, g).effects, env).Ok?
    ensures var env' := ApplyAll(MaxInsts(c, s, g).effects, env).value;
      env'.processor.SwitchableCores? && Coherent(MaxInsts(c, s, g).state.phase, env'.processor.onStart)
  {
    ApplyAllSwitches(MaxInsts(c, s, g).effects, env);
    MaxInstsKeepsCoherence(c, s, g, env.processor.onStart);
  }

  /** The same for WORKEND. */
  lemma WorkEndKeepsProcessorCoherent(c: Config, s: State, env: Env)
    requires env.processor.SwitchableCores? && Coherent(s.phase, env.processor.onStart)
    requires ApplyAll(WorkEnd(c, s).effects, env).Ok?
    ensures var env' := ApplyAll(WorkEnd(c, s).effects, env).value;
      env'.processor.SwitchableCores? && env'.processor.onStart
  {
    ApplyAllSwitches(WorkEnd(c, s).effects, env);
    WorkEndKeepsCoherence(c, s, env.processor.onStart);
  }

  // ---------------------------------------------------------------------
  // Runs of MAX_INSTS events
  // ---------------------------------------------------------------------

  /** Where n consecutive MAX_INSTS calls leave the manager, and what they yielded. */
  datatype Run = Run(state: State, resume: Resume, outputs: seq<bool>)

  function MaxInstsRun(c: Config, s: State, g: Resume, n: nat): (r: Run)
    requires MaxInstsResume(g)
    ensures MaxInstsResume(r.resume) && |r.outputs| == n
    decreases n
  {
    if n == 0 then Run(s, g, [])
    else
      var step := MaxInsts(c, s, g);
      var rest := MaxInstsRun(c, step.state, step.resume, n - 1);
      Run(rest.state, rest.resume, [step.yielded] + rest.outputs)
  }

  /** Running a + b events is running a events and then b more. */
  lemma {:induction false} MaxInstsRunSplit(c: Config, s: State, g: Resume, a: nat, b: nat)
    requires MaxInstsResume(g)
    ensures var first := MaxInstsRun(c, s, g, a);
            var second := MaxInstsRun(c, first.state, first.resume, b);
            MaxInstsRun(c, s, g, a + b) == Run(second.state, second.resume, first.outputs + second.outputs)
    decreases a
  {
    if a > 0 {
      var step := MaxInsts(c, s, g);
      MaxInstsRunSplit(c, step.state, step.resume, a - 1, b);
      assert a + b - 1 == (a - 1) + b;
      var first := MaxInstsRun(c, step.state, step.resume, a - 1);
      var second := MaxInstsRun(c, first.state, first.resume, b);
      assert [step.yielded] + (first.outputs + second.outputs) == ([step.yielded] + first.outputs) + second.outputs;
    }
  }

  /**
   * One sampling round from FF_WORK: warm-up, ROI, back to FF_WORK with one
   * more ROI completed; only the ROI's end can stop the run.
   */
  lemma Round(c: Config, s: State)
    requires s.phase == FFWork
    ensures var r := MaxInstsRun(c, s, AtStart, 3);
      && r.outputs == [false, false, LimitReached(c, s.completedRois + 1) && !c.continueSim]
      && r.state.phase == FFWork && r.state.completedRois == s.completedRois + 1
      && (!LimitReached(c, s.completedRois + 1) ==> r.state.nextEvent == Instructions(c.ff) && r.resume == AtStart)
  {
    var s1 := MaxInsts(c, s, AtStart);
    var s2 := MaxInsts(c, s1.state, s1.resume);
    var s3 := MaxInsts(c, s2.state, s2.resume);
    assert MaxInstsRun(c, s2.state, s2.resume, 1).outputs == [s3.yielded];
    assert MaxInstsRun(c, s1.state, s1.resume, 2).outputs == [s2.yielded, s3.yielded];
  }

  /** All-false outputs of length n. */
  predicate NoStop(outputs: seq<bool>) {
    forall k :: 0 <= k < |outputs| ==> !outputs[k]
  }

  /**
   * n rounds from FF_WORK below the ROI limit complete n ROIs without
   * stopping and end in FF_WORK, scheduling the next fast-forward.
   */
  lemma {:induction false} RoundsBelowLimit(c: Config, s: State, n: nat)
    requires s.phase == FFWork
    requires !Truthy(c.numRois) || s.completedRois + n < c.numRois.value
    decreases n
    ensures var r := MaxInstsRun(c, s, AtStart, 3 * n);
      && NoStop(r.outputs) && r.resume == AtStart
      && r.state.phase == FFWork && r.state.completedRois == s.completedRois + n
      && (n > 0 ==> r.state.nextEvent == Instructions(c.ff))
  {
    if n > 0 {
      Round(c, s);
      var first := MaxInstsRun(c, s, AtStart, 3);
      RoundsBelowLimit(c, first.state, n - 1);
      MaxInstsRunSplit(c, s, AtStart, 3, 3 * (n - 1));
      assert 3 + 3 * (n - 1) == 3 * n;
      var second := MaxInstsRun(c, first.state, first.resume, 3 * (n - 1));
      if n - 1 == 0 {
        assert second.state == first.state;
      }
    }
  }

  /** The last round before the limit stops the run at its ROI end. */
  lemma LastRound(c: Config, s: State)
    requires s.phase == FFWork && !c.continueSim
    requires c.numRois == Some(s.completedRois + 1) && s.completedRois + 1 != 0
    ensures var r := MaxInstsRun(c, s, AtStart, 3);
      && NoStop(r.outputs[..2]) && r.outputs[2]
      && r.state.completedRois == s.completedRois + 1 && r.state.phase == FFWork
  {
    Round(c, s);
    assert LimitReached(c, s.completedRois + 1);
    var r := MaxInstsRun(c, s, AtStart, 3);
    assert r.outputs[..2] == [false, false];
  }

  /**
   * From FF_WORK with n + 1 ROIs still to go before the limit, and no
   * `continue_sim`: n rounds pass without a stop and the next round's ROI
   * end, the (3n + 3)-th MAX_INSTS event, stops the simulation.
   */
  lemma RoundsThenStop(c: Config, s: State, n: nat)
    requires s.phase == FFWork && !c.continueSim
    requires c.numRois == Some(s.completedRois + n + 1) && s.completedRois + n + 1 != 0
    ensures var r := MaxInstsRun(c, s, AtStart, 3 * n + 3);
      && NoStop(r.outputs[..3 * n + 2]) && r.outputs[3 * n + 2]
      && r.state.completedRois == s.completedRois + n + 1 && r.state.phase == FFWork
  {
    RoundsBelowLimit(c, s, n);
    var rounds := MaxInstsRun(c, s, AtStart, 3 * n);
    LastRound(c, rounds.state);
    MaxInstsRunSplit(c, s, AtStart, 3 * n, 3);
    var last := MaxInstsRun(c, rounds.state, AtStart, 3);
    NoStopAppend(rounds.outputs, last.outputs, 2);
  }

  /** No stop in a, and none in b before index m, is no stop in a + b before |a| + m. */
  lemma NoStopAppend(a: seq<bool>, b: seq<bool>, m: nat)
    requires NoStop(a) && m < |b| && NoStop(b[..m])
    ensures NoStop((a + b)[..|a| + m]) && (a + b)[|a| + m] == b[m]
  {
    var prefix := (a + b)[..|a| + m];
    forall j | 0 <= j < |prefix|
      ensures !prefix[j]
    {
      if j >= |a| {
        assert prefix[j] == b[..m][j - |a|];
      }
    }
  }

  /**
   * With `num_rois` = k > 0, no `continue_sim` and a positive initial
   * fast-forward, a fresh manager stops at the (1 + 3k)-th MAX_INSTS event,
   * the end of its k-th ROI, and at no earlier one.
   */
  lemma StopsAfterKRois(c: Config, k: nat)
    requires c.numRois == Some(k) && k > 0 && !c.continueSim && c.initFF > 0
    ensures var r := MaxInstsRun(c, Initial(c), AtStart, 1 + 3 * k);
      && NoStop(r.outputs[..3 * k]) && r.outputs[3 * k]
      && r.state.completedRois == k && r.state.phase == FFWork
  {
    var s0 := Initial(c);
    var s1 := MaxInsts(c, s0, AtStart);
    RoundsThenStop(c, s1.state, k - 1);
    assert 3 * (k - 1) + 3 == 3 * k;
    MaxInstsRunSplit(c, s0, AtStart, 1, 3 * k);
    var rest := MaxInstsRun(c, s1.state, AtStart, 3 * k);
    assert MaxInstsRun(c, s0, AtStart, 1).outputs == [false];
    NoStopAppend([false], rest.outputs, 3 * k - 1);
  }

  /** With `continue_sim` set, MAX_INSTS never stops the simulation. */
  lemma {:induction false} ContinueSimNeverStops(c: Config, s: State, g: Resume, n: nat)
    requires MaxInstsResume(g) && c.continueSim
    ensures NoStop(MaxInstsRun(c, s, g, n).outputs)
    decreases n
  {
    if n > 0 {
      var step := MaxInsts(c, s, g);
      ContinueSimNeverStops(c, step.state, step.resume, n - 1);
    }
  }

  /** Without a ROI limit, MAX_INSTS never stops the simulation either. */
  lemma {:induction false} NoLimitNeverStops(c: Config, s: State, g: Resume, n: nat)
    requires MaxInstsResume(g) && !Truthy(c.numRois)
    ensures NoStop(MaxInstsRun(c, s, g, n).outputs)
    decreases n
  {
    if n > 0 {
      var step := MaxInsts(c, s, g);
      NoLimitNeverStops(c, step.state, step.resume, n - 1);
    }
  }

  /**
   * The run with init_ff = 1000, ff = 500, warm-up = 200, ROI = 300 and two
   * ROIs: FF_INIT, FF_WORK, WARMUP, ROI, FF_WORK (one ROI), WARMUP, ROI and
   * a stop at the end of the second ROI, on the seventh event.
   */
  lemma TwoRoiScenario()
    ensures var c := Config(500, 200, 300, 1000, Some(2), false);
      && Initial(c) == State(FFInit, 0, Instructions(1000))
      && MaxInstsRun(c, Initial(c), AtStart, 7).outputs == [false, false, false, false, false, false, true]
      && MaxInstsRun(c, Initial(c), AtStart, 7).state.completedRois == 2
  {
    var c := Config(500, 200, 300, 1000, Some(2), false);
    StopsAfterKRois(c, 2);
    var outputs := MaxInstsRun(c, Initial(c), AtStart, 7).outputs;
    assert NoStop(outputs[..6]) && outputs[6];
    assert forall j :: 0 <= j < 6 ==> outputs[..6][j] == outputs[j];
  }
}
