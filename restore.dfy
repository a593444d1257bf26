/**
 * util/event_managers/checkpoint/restore.py: after a checkpoint is restored,
 * warm up for a number of instructions, then record the ROI's statistics
 * for a number of instructions and stop.
 */
module RestoreCheckpoint {
  import opened Results
  import opened EventTimes
  import opened Handlers

  /** `_warmup_interval` and `_roi_interval`, in instructions. */
  datatype Config = Config(warmup: int, roi: int)

  /** The only state is the inherited `_next_event`. */
  datatype State = State(nextEvent: EventTime)

  /** What `initialize` leaves and performs. */
  datatype Setup = Setup(state: State, effects: seq<Effect>)

  /** Python truthiness of an optional float. */
  predicate TruthyReal(x: Option<real>) {
    x.Some? && x.value != 0.0
  }

  /**
   * The constructor's interval handling (restore.py:53-73): a set warm-up
   * below zero or a set ROI below one aborts with exit status 1; an unset or
   * zero value becomes 0; otherwise millions of instructions are truncated
   * to whole instructions.
   */
  function MakeConfig(warmup: Option<real>, roi: Option<real>): (r: Result<Config>)
    ensures r.Err? <==> (TruthyReal(warmup) && warmup.value < 0.0) || (TruthyReal(roi) && roi.value < 1.0)
    ensures r.Err? ==> r.error == SystemExit(1)
    ensures r.Ok? ==> r.value.warmup >= 0 && r.value.roi >= 0
    ensures r.Ok? ==> (r.value.warmup == 0 <==> !TruthyReal(warmup) || warmup.value < 0.000001)
    ensures r.Ok? && TruthyReal(warmup) ==>
      r.value.warmup as real <= warmup.value * 1000000.0 < r.value.warmup as real + 1.0
    ensures r.Ok? ==> (r.value.roi == 0 <==> !TruthyReal(roi))
    ensures r.Ok? && TruthyReal(roi) ==>
      r.value.roi as real <= roi.value * 1000000.0 < r.value.roi as real + 1.0
  {
    if TruthyReal(warmup) && warmup.value < 0.0 then Err(SystemExit(1))
    else if TruthyReal(roi) && roi.value < 1.0 then Err(SystemExit(1))
    else
      Ok(Config(if TruthyReal(warmup) then (warmup.value * 1000000.0).Floor else 0,
                if TruthyReal(roi) then (roi.value * 1000000.0).Floor else 0))
  }

  /** The all-undefined next event of a fresh manager. */
  const Initial := State(Unset)

  /**
   * `initialize` (restore.py:75-101): with a warm-up, schedule its end;
   * without one the ROI starts at once, with a statistics reset, and its end
   * is scheduled when the ROI interval is positive.
   */
  function Initialize(c: Config, s: State): Setup {
    if c.warmup > 0 then Setup(State(Instructions(c.warmup)), [])
    else Setup(if c.roi > 0 then State(Instructions(c.roi)) else s, [StatsReset])
  }

  /** The resume points of the straight-line MAX_INSTS generator. */
  predicate MaxInstsResume(g: Resume) {
    g == AtStart || g == AfterWarmupYield || g == Finished
  }

  /** Leaving the ROI: dump, reset and stop. */
  function EndRoi(s: State): Reaction<State> {
    Reaction(s, Finished, [StatsDump, StatsReset], true)
  }

  /**
   * One `next()` of `_handle_maxinsts` (restore.py:125-156): with a warm-up
   * the first call starts the ROI (reset, schedule its end when positive)
   * and continues; the call after that, or the first one without a
   * warm-up, ends the ROI and stops. A further call raises.
   */
  function MaxInsts(c: Config, s: State, g: Resume): (r: Result<Reaction<State>>)
    requires MaxInstsResume(g)
    ensures r.Ok? ==> MaxInstsResume(r.value.resume)
  {
    if g == Finished then Err(StopIteration)
    else if g == AtStart && c.warmup > 0 then
      Ok(Reaction(if c.roi > 0 then State(Instructions(c.roi)) else s, AfterWarmupYield, [StatsReset], false))
    else Ok(EndRoi(s))
  }

  /** `_handle_workend` (restore.py:113-123): end the ROI and stop; once only. */
  function WorkEnd(s: State, g: Resume): Result<Reaction<State>> {
    if g == Finished then Err(StopIteration) else Ok(EndRoi(s))
  }

  /** The exit events this manager handles (restore.py:108-111). */
  const Handled: set<ExitEvent> := {ExitEvent.MaxInsts, ExitEvent.WorkEnd}

  /** `initialize` schedules the warm-up's end, or starts the ROI at once. */
  lemma InitializeSchedules(c: Config, s: State)
    ensures var r := Initialize(c, s);
      && (c.warmup > 0 ==> r.state.nextEvent == Instructions(c.warmup) && r.effects == [])
      && (c.warmup <= 0 ==>
            && r.effects == [StatsReset]
            && r.state.nextEvent == (if c.roi > 0 then Instructions(c.roi) else s.nextEvent))
  {
  }

  /**
   * The MAX_INSTS generator yields False then True with a warm-up and True
   * at once without one, raising on any further call; the first call of a
   * warm-up run resets statistics and schedules the ROI's end when positive.
   */
  lemma MaxInstsSequence(c: Config, s: State)
    ensures var first := MaxInsts(c, s, AtStart).value;
      && (c.warmup > 0 ==>
            && !first.yielded && first.effects == [StatsReset]
            && first.state.nextEvent == (if c.roi > 0 then Instructions(c.roi) else s.nextEvent)
            && var second := MaxInsts(c, first.state, first.resume).value;
               second.yielded && MaxInsts(c, second.state, second.resume) == Err(StopIteration))
      && (c.warmup <= 0 ==> first.yielded && MaxInsts(c, first.state, first.resume) == Err(StopIteration))
  {
  }

  /** WORKEND stops the run, once. */
  lemma WorkEndStops(s: State)
    ensures WorkEnd(s, AtStart).Ok? && WorkEnd(s, AtStart).value.yielded
    ensures WorkEnd(s, Finished) == Err(StopIteration)
  {
  }

  /** Every statistics dump comes after some reset. */
  predicate ResetBeforeEachDump(es: seq<Effect>) {
    forall i :: 0 <= i < |es| && es[i] == StatsDump ==> exists j :: 0 <= j < i && es[j] == StatsReset
  }

  /** How the statistics are reset and dumped when MAX_INSTS events end the run. */
  function MaxInstsPathEffects(c: Config): seq<Effect> {
    var init := Initialize(c, Initial);
    var first := MaxInsts(c, init.state, AtStart).value;
    if first.yielded then init.effects + first.effects
    else init.effects + first.effects + MaxInsts(c, first.state, first.resume).value.effects
  }

  /**
   * When MAX_INSTS events end the run, there is exactly one dump, the last
   * effect but one, and it follows the reset that enters the ROI.
   */
  lemma MaxInstsPathDumpsAfterReset(c: Config)
    ensures var es := MaxInstsPathEffects(c);
      && ResetBeforeEachDump(es)
      && es[|es| - 2] == StatsDump
      && forall i :: 0 <= i < |es| - 2 ==> es[i] != StatsDump
  {
    var es := MaxInstsPathEffects(c);
    assert es == [StatsReset, StatsDump, StatsReset];
    assert es[0] == StatsReset;
  }

  /**
   * A WORKEND that arrives during the warm-up dumps before any reset: the
   * ordering above holds only for runs that reach the ROI.
   */
  lemma WorkEndDuringWarmupDumpsFirst(c: Config)
    requires c.warmup > 0
    ensures var init := Initialize(c, Initial);
      !ResetBeforeEachDump(init.effects + WorkEnd(init.state, AtStart).value.effects)
  {
    var init := Initialize(c, Initial);
    var es := init.effects + WorkEnd(init.state, AtStart).value.effects;
    assert es[0] == StatsDump;
  }
}
