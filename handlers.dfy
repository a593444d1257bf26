/**
 * What one call of an exit-event handler does, as a value.
 *
 * The event managers of util/event_managers/ hand gem5 Python generators;
 * every `next()` on one runs the handler up to its next `yield`. Here a
 * handler step is a function from the manager's state and the generator's
 * resume point to a Reaction: the new state, where the generator resumes,
 * the ordered side effects on gem5, and the value yielded (True stops the
 * simulation). The side effects are given meaning by Apply on an Env, the
 * part of gem5 and of the coordinator that the handlers can see.
 */
module Handlers {
  import opened Results

  /** The gem5 exit events the coordinator dispatches (ExitEvent.*). */
  datatype ExitEvent = Checkpoint | MaxInsts | SimpointBegin | WorkBegin | WorkEnd

  /**
   * Where a handler generator resumes on its next `next()`:
   * AtStart for a fresh generator or one looping back to `while True`;
   * AfterStopYield for PeriodicROIManager's MAX_INSTS generator suspended at
   * its `yield True` (roi/periodic.py:256); AfterWarmupYield for
   * RestoreCheckpointManager's MAX_INSTS generator suspended after warm-up
   * (checkpoint/restore.py:145); Finished for a generator that has run off
   * its end, whose next `next()` raises StopIteration.
   */
  datatype Resume = AtStart | AfterStopYield | AfterWarmupYield | Finished

  /** A side effect a handler performs on gem5, in the order performed. */
  datatype Effect =
    | StatsDump              // m5.stats.dump()
    | StatsReset             // m5.stats.reset(), called directly
    | CoordinatorResetStats  // self._coordinator.reset_stats()
    | SwitchProcessor        // EventManager.switch_processor()
    | TakeCheckpoint         // m5.checkpoint(dir)

  /** The outcome of one handler step that did not raise. */
  datatype Reaction<S> = Reaction(state: S, resume: Resume, effects: seq<Effect>, yielded: bool)

  /** A call into the m5 module, as recorded in the kernel's trace. */
  datatype M5Call = Dumped | Reset | CheckpointSaved

  /**
   * The board's processor as far as switching goes: absent (no simulator),
   * a fixed processor without `switch()`, or a switchable one telling
   * whether its starting cores are active and how often it was switched.
   */
  datatype ProcessorView = NoProcessor | FixedCores | SwitchableCores(onStart: bool, switches: nat)

  /**
   * What a handler's side effects read and change: whether the manager has a
   * coordinator, whether that has a simulator and it is instantiated, the
   * processor, the coordinator's instruction carry, the `simInsts` statistic
   * and the trace of m5 calls.
   */
  datatype Env = Env(
    coordinatorSet: bool,
    simulatorSet: bool,
    instantiated: bool,
    processor: ProcessorView,
    totalInstructions: int,
    simInsts: nat,
    trace: seq<M5Call>)


  /** EventManager.validate_simulator (event_manager.py:361-376). */
  function ValidateSimulator(env: Env): (r: Outcome)
    ensures r.Pass? <==> env.coordinatorSet && env.simulatorSet && env.instantiated
  {
    if !env.coordinatorSet then Fail(ValueError(CoordinatorNotSet))
    else if !env.simulatorSet then Fail(ValueError(SimulatorNotSet))
    else if !env.instantiated then Fail(ValueError(SimulatorNotInstantiated))
    else Pass
  }

  /**
   * EventCoordinator.reset_stats called from a manager (event_manager.py:143-155):
   * raises without a coordinator, does nothing without a simulator, and
   * otherwise moves `simInsts` into the instruction carry and resets.
   */
  function CoordinatorReset(env: Env): Result<Env> {
    if !env.coordinatorSet then Err(AttributeError(NoCoordinatorToReset))
    else if !env.simulatorSet then Ok(env)
    else Ok(env.(totalInstructions := env.totalInstructions + env.simInsts,
                 simInsts := 0,
                 trace := env.trace + [Reset]))
  }

  /**
   * EventManager.switch_processor (event_manager.py:339-359): the simulator
   * must pass validation and its processor must have `switch()`.
   */
  function Switched(env: Env): Result<Env> {
    match ValidateSimulator(env)
    case Fail(err) => Err(err)
    case Pass =>
      match env.processor
      case SwitchableCores(onStart, n) => Ok(env.(processor := SwitchableCores(!onStart, n + 1)))
      case _ => Err(AttributeError(NoSwitchMethod))
  }

  /** The meaning of one side effect; Err when the call raises. */
  function Apply(e: Effect, env: Env): Result<Env> {
    match e
    case StatsDump => Ok(env.(trace := env.trace + [Dumped]))
    case StatsReset => Ok(env.(simInsts := 0, trace := env.trace + [Reset]))
    case TakeCheckpoint => Ok(env.(trace := env.trace + [CheckpointSaved]))
    case CoordinatorResetStats => CoordinatorReset(env)
    case SwitchProcessor => Switched(env)
  }

  /** The side effects performed in order, stopping at the first that raises. */
  function ApplyAll(es: seq<Effect>, env: Env): Result<Env>
    decreases |es|
  {
    if |es| == 0 then Ok(env)
    else
      match Apply(es[0], env)
      case Err(err) => Err(err)
      case Ok(env') => ApplyAll(es[1..], env')
  }

  /**
   * A handler call agrees with its step: it raises what the step raises,
   * or what the first failing side effect raises; otherwise it reports
   * the step's resume point and yield, and leaves the step's state and the
   * environment its side effects produce. The state after an exception is
   * left open, since the exception ends the simulation script.
   */
  predicate Performs<S(==)>(step: Result<Reaction<S>>, env: Env, r: Result<(Resume, bool)>, state: S, env': Env) {
    match step
    case Err(err) => r == Err(err)
    case Ok(x) =>
      match ApplyAll(x.effects, env)
      case Err(err) => r == Err(err)
      case Ok(after) => r == Ok((x.resume, x.yielded)) && state == x.state && env' == after
  }

  /** No side effect raises StopIteration, so only a generator itself does. */
  lemma {:induction false} ApplyAllNeverStops(es: seq<Effect>, env: Env)
    ensures ApplyAll(es, env).Err? ==> ApplyAll(es, env).error != StopIteration
    decreases |es|
  {
    if |es| > 0 {
      match Apply(es[0], env)
      case Err(_) =>
      case Ok(env') => ApplyAllNeverStops(es[1..], env');
    }
  }

  /** Number of processor switches among some effects. */
  function Switches(es: seq<Effect>): (n: nat)
    ensures n <= |es|
    ensures n == 0 <==> SwitchProcessor !in es
  {
    if |es| == 0 then 0
    else (if es[0] == SwitchProcessor then 1 else 0) + Switches(es[1..])
  }

  /** Switches add up over concatenation. */
  lemma {:induction false} SwitchesAppend(a: seq<Effect>, b: seq<Effect>)
    ensures Switches(a + b) == Switches(a) + Switches(b)
  {
    if |a| > 0 {
      assert (a + b)[0] == a[0];
      assert (a + b)[1..] == a[1..] + b;
      SwitchesAppend(a[1..], b);
    } else {
      assert a + b == b;
    }
  }

  /** Performing `a` and then `b` is performing `a + b`. */
  lemma {:induction false} ApplyAllAppend(a: seq<Effect>, b: seq<Effect>, env: Env)
    ensures ApplyAll(a + b, env) ==
            match ApplyAll(a, env)
            case Err(err) => Err(err)
            case Ok(env') => ApplyAll(b, env')
  {
    if |a| > 0 {
      assert (a + b)[0] == a[0];
      assert (a + b)[1..] == a[1..] + b;
      match Apply(a[0], env)
      case Err(_) =>
      case Ok(env') => ApplyAllAppend(a[1..], b, env');
    } else {
      assert a + b == b;
    }
  }

  /** Two effects in order: the second runs in the environment the first leaves. */
  lemma ApplyTwo(a: Effect, b: Effect, env: Env)
    ensures ApplyAll([a, b], env) == match Apply(a, env) case Err(err) => Err(err) case Ok(env1) => Apply(b, env1)
  {
    assert [a, b][1..] == [b];
    assert [b][1..] == [];
    match Apply(a, env)
    case Err(_) =>
    case Ok(env1) =>
      assert ApplyAll([a, b], env) == ApplyAll([b], env1);
      match Apply(b, env1)
      case Err(_) =>
      case Ok(env2) =>
        assert ApplyAll([b], env1) == ApplyAll([], env2);
  }

  /** Three effects in order. */
  lemma ApplyThree(a: Effect, b: Effect, c: Effect, env: Env)
    ensures ApplyAll([a, b, c], env) ==
      match Apply(a, env)
      case Err(err) => Err(err)
      case Ok(env1) => match Apply(b, env1) case Err(err) => Err(err) case Ok(env2) => Apply(c, env2)
  {
    assert [a, b, c][1..] == [b, c];
    match Apply(a, env)
    case Err(_) =>
    case Ok(env1) => ApplyTwo(b, c, env1);
  }

  /** One more effect after some that completed. */
  lemma ApplyAllSnoc(es: seq<Effect>, e: Effect, env: Env)
    requires ApplyAll(es, env).Ok?
    ensures ApplyAll(es + [e], env) == Apply(e, ApplyAll(es, env).value)
  {
    ApplyAllAppend(es, [e], env);
    assert [e][1..] == [];
  }

  /** An effect that raises after some that completed ends the list there, with its exception. */
  lemma ApplyAllStops(es: seq<Effect>, e: Effect, rest: seq<Effect>, env: Env)
    requires ApplyAll(es, env).Ok? && Apply(e, ApplyAll(es, env).value).Err?
    ensures ApplyAll(es + [e] + rest, env) == Err(Apply(e, ApplyAll(es, env).value).error)
  {
    ApplyAllSnoc(es, e, env);
    ApplyAllAppend(es + [e], rest, env);
  }

  /**
   * Effects never change whether a coordinator or simulator is present, and
   * a switchable processor ends on its starting cores exactly when it
   * started there and was switched an even number of times.
   */
  lemma {:induction false} ApplyAllSwitches(es: seq<Effect>, env: Env)
    requires ApplyAll(es, env).Ok?
    ensures var env' := ApplyAll(es, env).value;
            && env'.coordinatorSet == env.coordinatorSet
            && env'.simulatorSet == env.simulatorSet
            && env'.instantiated == env.instantiated
            && (Switches(es) > 0 ==> env.processor.SwitchableCores?)
            && (env.processor.SwitchableCores? ==>
                  env'.processor == SwitchableCores(env.processor.onStart == (Switches(es) % 2 == 0),
                                                    env.processor.switches + Switches(es)))
            && (!env.processor.SwitchableCores? ==> env'.processor == env.processor)
  {
    if |es| > 0 {
      var env1 := Apply(es[0], env).value;
      ApplyAllSwitches(es[1..], env1);
    }
  }

  /**
   * EventCoordinator.reset_stats keeps the current instruction count
   * (carry plus `simInsts`) while zeroing the statistic.
   */
  lemma CoordinatorResetKeepsInstructionCount(env: Env)
    requires env.coordinatorSet && env.simulatorSet
    ensures Apply(CoordinatorResetStats, env).Ok?
    ensures var env' := Apply(CoordinatorResetStats, env).value;
            env'.totalInstructions + env'.simInsts == env.totalInstructions + env.simInsts && env'.simInsts == 0
  {
  }
}
