/**
 * util/event_managers/roi/simple.py: switch to the detailed processor and
 * start collecting statistics on every workbegin; dump them and switch
 * back on every workend. The manager has no state of its own.
 */
module SimpleROI {
  import opened Results
  import opened Handlers

  /** One `next()` of the looping `_handle_workbegin` (simple.py:34-47). */
  function WorkBegin(): Reaction<()> {
    Reaction((), AtStart, [SwitchProcessor, StatsReset], false)
  }

  /** One `next()` of the looping `_handle_workend` (simple.py:49-63). */
  function WorkEnd(): Reaction<()> {
    Reaction((), AtStart, [StatsDump, StatsReset, SwitchProcessor], false)
  }

  /** Only WORKBEGIN and WORKEND are handled (simple.py:29-32). */
  const Handled: set<ExitEvent> := {ExitEvent.WorkBegin, ExitEvent.WorkEnd}

  /**
   * Each handler switches the processor exactly once, never signals a stop
   * and is ready for another call; WORKEND dumps before it resets, and
   * WORKBEGIN resets after switching.
   */
  lemma HandlersSwitchOnceAndContinue()
    ensures Switches(WorkBegin().effects) == 1 && Switches(WorkEnd().effects) == 1
    ensures !WorkBegin().yielded && !WorkEnd().yielded
    ensures WorkBegin().resume == AtStart && WorkEnd().resume == AtStart
    ensures WorkBegin().effects[0] == SwitchProcessor && WorkEnd().effects[0] == StatsDump
  {
    assert WorkBegin().effects[1..] == [StatsReset];
    assert WorkEnd().effects[1..][1..] == [SwitchProcessor];
  }

  /**
   * A WORKBEGIN followed by a WORKEND that both complete on a switchable
   * processor leave it on the cores it started on, switched twice more.
   */
  lemma BeginThenEndRestoresProcessor(env: Env, mid: Env, env': Env)
    requires env.processor.SwitchableCores?
    requires ApplyAll(WorkBegin().effects, env) == Ok(mid)
    requires ApplyAll(WorkEnd().effects, mid) == Ok(env')
    ensures env'.processor == SwitchableCores(env.processor.onStart, env.processor.switches + 2)
  {
    HandlersSwitchOnceAndContinue();
    ApplyAllSwitches(WorkBegin().effects, env);
    ApplyAllSwitches(WorkEnd().effects, mid);
  }
}
