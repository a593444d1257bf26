/**
 * EventCoordinator's logic (util/event_managers/event_manager.py:91-280) on
 * values: the world it sees is the managers' snapshots in list order, the
 * resume points of their handler generators, the gem5-side environment and
 * the cycle carry. The class EventCoordinator is proved against these
 * functions.
 */
module Coordination {
  import opened Results
  import opened EventTimes
  import opened Handlers
  import opened ManagerSpecs

  datatype World = World(
    snaps: seq<Snapshot>,
    handlers: seq<map<ExitEvent, Resume>>,
    env: Env,
    totalCycles: int)

  /** `_handlers[k]` belongs to `_managers[k]` and holds live generators only. */
  predicate HandlersMatch(snaps: seq<Snapshot>, handlers: seq<map<ExitEvent, Resume>>) {
    forall k :: 0 <= k < |handlers| && k < |snaps| ==>
      && handlers[k].Keys == Handled(snaps[k])
      && forall e :: e in handlers[k] ==> ResumeOk(snaps[k], e, handlers[k][e])
  }

  predicate Wellformed(w: World) {
    HandlersMatch(w.snaps, w.handlers)
  }

  /**
   * `get_current_time` (event_manager.py:157-173): all zero before the
   * simulator is instantiated; otherwise the instruction carry plus
   * `simInsts`, the cycle carry and tick 0.
   */
  function CurrentTime(w: World): (t: EventTime)
    ensures t.instruction.Some? && t.cycle.Some? && t.tick.Some?
    ensures !(w.env.simulatorSet && w.env.instantiated) ==> t == EventTime(Some(0), Some(0), Some(0))
    ensures w.env.simulatorSet && w.env.instantiated ==>
      t == EventTime(Some(w.env.totalInstructions + w.env.simInsts), Some(w.totalCycles), Some(0))
  {
    if !w.env.simulatorSet || !w.env.instantiated then EventTime(Some(0), Some(0), Some(0))
    else EventTime(Some(w.env.totalInstructions + w.env.simInsts), Some(w.totalCycles), Some(0))
  }

  function NextEvents(snaps: seq<Snapshot>): (r: seq<EventTime>)
    ensures |r| == |snaps| && forall k :: 0 <= k < |snaps| ==> r[k] == NextEvent(snaps[k])
  {
    seq(|snaps|, k requires 0 <= k < |snaps| => NextEvent(snaps[k]))
  }

  /**
   * The instruction count `_schedule` passes to `schedule_max_insts`
   * (event_manager.py:180-210): the earliest pending instruction trigger,
   * when some manager has one and a simulator is set.
   */
  function Scheduled(w: World): Option<int> {
    var closest := Closest(NextEvents(w.snaps));
    if closest.instruction.Some? && CurrentTime(w).instruction.Some? && w.env.simulatorSet then
      closest.instruction
    else None
  }

  /** Something is scheduled exactly when a simulator is set and some manager has an instruction trigger; it is the earliest one. */
  lemma ScheduledIsEarliest(w: World)
    ensures Scheduled(w).Some? <==>
      w.env.simulatorSet && exists k :: 0 <= k < |w.snaps| && NextEvent(w.snaps[k]).instruction.Some?
    ensures Scheduled(w).Some? ==>
      && (exists k :: 0 <= k < |w.snaps| && NextEvent(w.snaps[k]).instruction == Scheduled(w))
      && (forall k :: 0 <= k < |w.snaps| && NextEvent(w.snaps[k]).instruction.Some? ==>
            Scheduled(w).value <= NextEvent(w.snaps[k]).instruction.value)
  {
    ClosestIsEarliest(NextEvents(w.snaps));
  }

  /**
   * The exception `_schedule` raises after scheduling (event_manager.py:212-216):
   * any pending cycle or tick trigger is unsupported, since the current time
   * always defines both units.
   */
  function ScheduleError(w: World): Option<Error> {
    var closest := Closest(NextEvents(w.snaps));
    var now := CurrentTime(w);
    if closest.cycle.Some? && now.cycle.Some? then Some(NotImplementedError(CycleNotImplemented))
    else if closest.tick.Some? && now.tick.Some? then Some(NotImplementedError(TickNotImplemented))
    else None
  }

  /** `_schedule` raises exactly when some manager has a cycle or tick trigger, and names cycles first. */
  lemma ScheduleErrorCases(w: World)
    ensures ScheduleError(w).Some? <==>
      (exists k :: 0 <= k < |w.snaps| && (NextEvent(w.snaps[k]).cycle.Some? || NextEvent(w.snaps[k]).tick.Some?))
    ensures ScheduleError(w).Some? ==> ScheduleError(w).value.NotImplementedError?
    ensures (exists k :: 0 <= k < |w.snaps| && NextEvent(w.snaps[k]).cycle.Some?) ==>
      ScheduleError(w) == Some(NotImplementedError(CycleNotImplemented))
  {
    ClosestIsEarliest(NextEvents(w.snaps));
  }

  /** Fresh handler generators for each manager, as `register` appends them (event_manager.py:136-138). */
  function FreshAll(snaps: seq<Snapshot>): (r: seq<map<ExitEvent, Resume>>)
    ensures |r| == |snaps| && forall k :: 0 <= k < |snaps| ==> r[k] == FreshHandlers(snaps[k])
  {
    seq(|snaps|, k requires 0 <= k < |snaps| => FreshHandlers(snaps[k]))
  }

  /** The world after `register`: fresh handler generators appended, in the environment `env`. */
  function Registered(w: World, env: Env): World {
    World(w.snaps, w.handlers + FreshAll(w.snaps), env, w.totalCycles)
  }

  /**
   * `register` keeps the world well-formed, whether it is the first
   * registration or a later one whose handlers are never reached because
   * the earlier ones come first.
   */
  lemma RegisterWellformed(snaps: seq<Snapshot>, handlers: seq<map<ExitEvent, Resume>>)
    requires HandlersMatch(snaps, handlers) && (|handlers| == 0 || |handlers| >= |snaps|)
    ensures HandlersMatch(snaps, handlers + FreshAll(snaps))
  {
    var h' := handlers + FreshAll(snaps);
    forall k | 0 <= k < |h'| && k < |snaps|
      ensures h'[k].Keys == Handled(snaps[k])
      ensures forall e :: e in h'[k] ==> ResumeOk(snaps[k], e, h'[k][e])
    {
      if |handlers| == 0 {
        assert h'[k] == FreshHandlers(snaps[k]);
      } else {
        assert h'[k] == handlers[k];
      }
    }
  }

  /** Whether manager k's handler runs for `e` at instruction `curr`. */
  predicate Due(w: World, e: ExitEvent, curr: int, k: nat)
    requires k < |w.snaps| && k < |w.handlers|
  {
    && e in w.handlers[k]
    && (e == ExitEvent.MaxInsts ==>
          NextEvent(w.snaps[k]).instruction.Some? && NextEvent(w.snaps[k]).instruction.value <= curr)
  }

  /**
   * A StopIteration escaping `next()` inside the coordinator's own
   * generator surfaces as RuntimeError (PEP 479).
   */
  function InGenerator(err: Error): Error {
    if err == StopIteration then RuntimeError(GeneratorRaisedStopIteration) else err
  }

  /** One `next()` on a manager's handler generator, as a function of the manager and where it is suspended. */
  type Stepper = (Snapshot, ExitEvent, Resume) -> Result<Reaction<Snapshot>>

  /** How a manager's yield enters `res`: `manager_res or False` for MAX_INSTS, `manager_res or True` otherwise. */
  function Combine(e: ExitEvent, res: bool, yielded: bool): bool {
    if e == ExitEvent.MaxInsts then res || yielded else res || true
  }

  /**
   * The dispatch loops of `_handle_max_insts` (event_manager.py:228-248)
   * and `_handle_unscheduled` (event_manager.py:265-274) from index k on,
   * with the result so far `res`. The loop is stated for any manager step
   * `next`; the coordinator runs it with Next.
   */
  function DispatchFrom(next: Stepper, w: World, e: ExitEvent, curr: int, k: nat, res: bool): Result<(World, bool)>
    requires k <= |w.snaps|
    decreases |w.snaps| - k
  {
    if k == |w.snaps| then Ok((w, res))
    else if k >= |w.handlers| then Err(IndexError)
    else if !Due(w, e, curr, k) then DispatchFrom(next, w, e, curr, k + 1, res)
    else
      match StepOf(next, w, e, k)
      case Err(err) => Err(InGenerator(err))
      case Ok(r) =>
        match ApplyAll(r.effects, w.env)
        case Err(err) => Err(err)
        case Ok(env') => DispatchFrom(next, After(w, e, k, r, env'), e, curr, k + 1, Combine(e, res, r.yielded))
  }

  /** The world after manager k's step for `e`. */
  function After(w: World, e: ExitEvent, k: nat, r: Reaction<Snapshot>, env': Env): (w': World)
    requires k < |w.snaps| && k < |w.handlers|
    ensures |w'.snaps| == |w.snaps| && |w'.handlers| == |w.handlers| && w'.totalCycles == w.totalCycles
  {
    World(w.snaps[k := r.state], w.handlers[k := w.handlers[k][e := r.resume]], env', w.totalCycles)
  }

  /** Only manager k's snapshot and its handler for `e` change. */
  lemma AfterFrame(w: World, e: ExitEvent, k: nat, r: Reaction<Snapshot>, env': Env)
    requires k < |w.snaps| && k < |w.handlers|
    ensures var w1 := After(w, e, k, r, env');
      && w1.snaps[k] == r.state && w1.handlers[k] == w.handlers[k][e := r.resume] && w1.env == env'
      && (forall j :: 0 <= j < |w.snaps| && j != k ==> w1.snaps[j] == w.snaps[j])
      && (forall j :: 0 <= j < |w.handlers| && j != k ==> w1.handlers[j] == w.handlers[j])
  {
  }

  /** A step that keeps the manager's kind and leaves a valid resume point keeps the world well-formed. */
  lemma AfterWellformed(w: World, e: ExitEvent, k: nat, r: Reaction<Snapshot>, env': Env)
    requires Wellformed(w) && k < |w.snaps| && k < |w.handlers| && e in w.handlers[k]
    requires SameKind(w.snaps[k], r.state) && ResumeOk(r.state, e, r.resume)
    ensures Wellformed(After(w, e, k, r, env'))
  {
    var w' := After(w, e, k, r, env');
    forall j, e' | 0 <= j < |w'.handlers| && j < |w'.snaps| && e' in w'.handlers[j]
      ensures ResumeOk(w'.snaps[j], e', w'.handlers[j][e'])
    {
      if j == k && e' != e {
        SameKindResumes(w.snaps[k], r.state, e', w.handlers[k][e']);
      }
    }
    SameKindResumes(w.snaps[k], r.state, e, r.resume);
  }

  /**
   * One `next()` on a generator of manager snapshot `s` for `e` suspended
   * at `g`. A generator for an event the manager does not handle, or one
   * suspended where the manager's code has no yield, is reported as an
   * error; a well-formed world has neither.
   */
  function Next(s: Snapshot, e: ExitEvent, g: Resume): (r: Result<Reaction<Snapshot>>)
    ensures r.Ok? ==> SameKind(s, r.value.state) && ResumeOk(r.value.state, e, r.value.resume)
  {
    if e in Handled(s) && ResumeOk(s, e, g) then Step(s, e, g) else Err(RuntimeError(UnknownGeneratorState))
  }

  /**
   * `next` agrees with Step on every live generator. The coordinator's
   * proofs are stated for any such stepper; Next is one.
   */
  ghost predicate IsStep(next: Stepper) {
    forall s, e, g {:trigger Step(s, e, g)} :: e in Handled(s) && ResumeOk(s, e, g) ==> next(s, e, g) == Step(s, e, g)
  }

  lemma NextIsStep()
    ensures IsStep(Next)
  {
  }

  /** Manager k's step for `e`. */
  function StepOf(next: Stepper, w: World, e: ExitEvent, k: nat): Result<Reaction<Snapshot>>
    requires k < |w.snaps| && k < |w.handlers| && e in w.handlers[k]
  {
    next(w.snaps[k], e, w.handlers[k][e])
  }

  /** The current instruction count matters to MAX_INSTS only. */
  lemma {:induction false} DispatchFromAnyCurr(next: Stepper, w: World, e: ExitEvent, c1: int, c2: int, k: nat, res: bool)
    requires e != ExitEvent.MaxInsts && k <= |w.snaps|
    ensures DispatchFrom(next, w, e, c1, k, res) == DispatchFrom(next, w, e, c2, k, res)
    decreases |w.snaps| - k
  {
    if k < |w.snaps| && k < |w.handlers| {
      assert Due(w, e, c1, k) == Due(w, e, c2, k);
      if !Due(w, e, c1, k) {
        DispatchFromAnyCurr(next, w, e, c1, c2, k + 1, res);
      } else {
        match StepOf(next, w, e, k)
        case Err(_) =>
        case Ok(r) =>
          match ApplyAll(r.effects, w.env)
          case Err(_) =>
          case Ok(env') =>
            DispatchFromAnyCurr(next, After(w, e, k, r, env'), e, c1, c2, k + 1, Combine(e, res, r.yielded));
      }
    }
  }

  /**
   * A due manager's handler call that Performs its step advances the
   * dispatch loop the way DispatchFrom does: it raises what the loop
   * raises, or it leaves the world with the manager's new snapshot, its
   * generator at the new resume point and the environment its effects
   * produced, from which the loop goes on at k + 1.
   */
  lemma PerformsDispatch(next: Stepper, w: World, e: ExitEvent, curr: int, k: nat, res: bool,
                         out: Result<(Resume, bool)>, state: Snapshot, env': Env)
    requires IsStep(next) && Wellformed(w) && k < |w.snaps| && k < |w.handlers| && Due(w, e, curr, k)
    requires Performs(next(w.snaps[k], e, w.handlers[k][e]), w.env, out, state, env')
    ensures out.Err? ==> DispatchFrom(next, w, e, curr, k, res) == Err(InGenerator(out.error))
    ensures out.Ok? ==>
      var w' := World(w.snaps[k := state], w.handlers[k := w.handlers[k][e := out.value.0]], env', w.totalCycles);
      && Wellformed(w')
      && DispatchFrom(next, w, e, curr, k, res) == DispatchFrom(next, w', e, curr, k + 1, Combine(e, res, out.value.1))
  {
    var step := Step(w.snaps[k], e, w.handlers[k][e]);
    assert StepOf(next, w, e, k) == step;
    if step.Ok? {
      ApplyAllNeverStops(step.value.effects, w.env);
      if out.Ok? {
        AfterWellformed(w, e, k, step.value, env');
      }
    }
  }

  /** One `next()` of the coordinator's handler for `e`, before `_schedule`. */
  function Dispatch(w: World, e: ExitEvent): Result<(World, bool)> {
    DispatchWith(Next, w, e)
  }

  /** The same dispatch with the managers' steps taken by `next`. */
  function DispatchWith(next: Stepper, w: World, e: ExitEvent): Result<(World, bool)> {
    DispatchFrom(next, w, e, CurrentTime(w).instruction.value, 0, false)
  }

  /** Every stepper that agrees with Step dispatches a well-formed world as Next does. */
  lemma {:induction false} DispatchFromStepper(next: Stepper, w: World, e: ExitEvent, curr: int, k: nat, res: bool)
    requires IsStep(next) && Wellformed(w) && k <= |w.snaps|
    ensures DispatchFrom(next, w, e, curr, k, res) == DispatchFrom(Next, w, e, curr, k, res)
    decreases |w.snaps| - k
  {
    if k < |w.snaps| && k < |w.handlers| {
      if !Due(w, e, curr, k) {
        DispatchFromStepper(next, w, e, curr, k + 1, res);
      } else {
        var step := Step(w.snaps[k], e, w.handlers[k][e]);
        assert StepOf(next, w, e, k) == step && StepOf(Next, w, e, k) == step;
        match step
        case Err(_) =>
        case Ok(r) =>
          match ApplyAll(r.effects, w.env)
          case Err(_) =>
          case Ok(env') =>
            AfterWellformed(w, e, k, r, env');
            DispatchFromStepper(next, After(w, e, k, r, env'), e, curr, k + 1, Combine(e, res, r.yielded));
      }
    }
  }

  lemma DispatchStepper(next: Stepper, w: World, e: ExitEvent)
    requires IsStep(next) && Wellformed(w)
    ensures DispatchWith(next, w, e) == Dispatch(w, e)
  {
    DispatchFromStepper(next, w, e, CurrentTime(w).instruction.value, 0, false);
  }

  // ---------------------------------------------------------------------
  // What the dispatch loops compute
  // ---------------------------------------------------------------------

  /** All due managers from k on complete their step. */
  predicate StepsOk(next: Stepper, w: World, e: ExitEvent, curr: int, k: nat)
    requires |w.snaps| <= |w.handlers|
  {
    forall j :: k <= j < |w.snaps| && Due(w, e, curr, j) ==> StepOf(next, w, e, j).Ok?
  }

  /** The effects of the due managers from k on, in list order. */
  function DueEffects(next: Stepper, w: World, e: ExitEvent, curr: int, k: nat): seq<Effect>
    requires |w.snaps| <= |w.handlers| && k <= |w.snaps|
    requires StepsOk(next, w, e, curr, k)
    decreases |w.snaps| - k
  {
    if k == |w.snaps| then []
    else (if Due(w, e, curr, k) then StepOf(next, w, e, k).value.effects else []) + DueEffects(next, w, e, curr, k + 1)
  }

  /**
   * One loop iteration: a due manager whose step and effects complete moves
   * the loop on to k + 1 in the world After that step.
   */
  lemma DispatchFromUnfold(next: Stepper, w: World, e: ExitEvent, curr: int, k: nat, res: bool)
    requires k < |w.snaps| && k < |w.handlers| && Due(w, e, curr, k)
    requires DispatchFrom(next, w, e, curr, k, res).Ok?
    ensures StepOf(next, w, e, k).Ok? && ApplyAll(StepOf(next, w, e, k).value.effects, w.env).Ok?
    ensures var r := StepOf(next, w, e, k).value;
      DispatchFrom(next, w, e, curr, k, res) ==
      DispatchFrom(next, After(w, e, k, r, ApplyAll(r.effects, w.env).value), e, curr, k + 1, Combine(e, res, r.yielded))
  {
  }

  /**
   * A completed dispatch from k: every due manager from k on completed its
   * step, and it is exactly that step (read off the world as it was when
   * the loop reached k) that the manager's snapshot now shows; the others,
   * and every manager before k, are unchanged.
   */
  lemma {:induction false} DispatchFromSnaps(next: Stepper, w: World, e: ExitEvent, curr: int, k: nat, res: bool)
    requires k <= |w.snaps| <= |w.handlers|
    requires DispatchFrom(next, w, e, curr, k, res).Ok?
    ensures StepsOk(next, w, e, curr, k)
    ensures var w' := DispatchFrom(next, w, e, curr, k, res).value.0;
      && |w'.snaps| == |w.snaps| && |w'.handlers| == |w.handlers| && w'.totalCycles == w.totalCycles
      && (forall j :: 0 <= j < |w.snaps| ==>
            w'.snaps[j] == (if k <= j && Due(w, e, curr, j) then StepOf(next, w, e, j).value.state else w.snaps[j]))
    decreases |w.snaps| - k
  {
    if k < |w.snaps| {
      if !Due(w, e, curr, k) {
        assert DispatchFrom(next, w, e, curr, k, res) == DispatchFrom(next, w, e, curr, k + 1, res);
        DispatchFromSnaps(next, w, e, curr, k + 1, res);
      } else {
        DispatchFromUnfold(next, w, e, curr, k, res);
        var r := StepOf(next, w, e, k).value;
        var env' := ApplyAll(r.effects, w.env).value;
        var w1 := After(w, e, k, r, env');
        DispatchFromSnaps(next, w1, e, curr, k + 1, Combine(e, res, r.yielded));
        SameAfter(next, w, e, curr, k, r, env');
        AfterFrame(w, e, k, r, env');
      }
    }
  }

  /** The same for the handler generators: only the due ones moved, to their step's resume point. */
  lemma {:induction false} DispatchFromHandlers(next: Stepper, w: World, e: ExitEvent, curr: int, k: nat, res: bool)
    requires k <= |w.snaps| <= |w.handlers| && StepsOk(next, w, e, curr, k)
    requires DispatchFrom(next, w, e, curr, k, res).Ok?
    ensures var w' := DispatchFrom(next, w, e, curr, k, res).value.0;
      && |w'.handlers| == |w.handlers|
      && (forall j :: 0 <= j < |w.handlers| ==>
            w'.handlers[j] == (if k <= j < |w.snaps| && Due(w, e, curr, j)
                               then w.handlers[j][e := StepOf(next, w, e, j).value.resume] else w.handlers[j]))
    decreases |w.snaps| - k
  {
    if k < |w.snaps| {
      if !Due(w, e, curr, k) {
        assert DispatchFrom(next, w, e, curr, k, res) == DispatchFrom(next, w, e, curr, k + 1, res);
        DispatchFromHandlers(next, w, e, curr, k + 1, res);
      } else {
        DispatchFromUnfold(next, w, e, curr, k, res);
        var r := StepOf(next, w, e, k).value;
        var env' := ApplyAll(r.effects, w.env).value;
        var w1 := After(w, e, k, r, env');
        SameAfter(next, w, e, curr, k, r, env');
        DispatchFromHandlers(next, w1, e, curr, k + 1, Combine(e, res, r.yielded));
        AfterFrame(w, e, k, r, env');
      }
    }
  }

  /** The effects of a completed dispatch from k are the due managers' effects, in list order. */
  lemma {:induction false} DispatchFromEffects(next: Stepper, w: World, e: ExitEvent, curr: int, k: nat, res: bool)
    requires k <= |w.snaps| && |w.snaps| <= |w.handlers| && StepsOk(next, w, e, curr, k)
    requires DispatchFrom(next, w, e, curr, k, res).Ok?
    ensures ApplyAll(DueEffects(next, w, e, curr, k), w.env) == Ok(DispatchFrom(next, w, e, curr, k, res).value.0.env)
    decreases |w.snaps| - k
  {
    if k < |w.snaps| {
      if !Due(w, e, curr, k) {
        assert DispatchFrom(next, w, e, curr, k, res) == DispatchFrom(next, w, e, curr, k + 1, res);
        DispatchFromEffects(next, w, e, curr, k + 1, res);
        assert DueEffects(next, w, e, curr, k) == [] + DueEffects(next, w, e, curr, k + 1) == DueEffects(next, w, e, curr, k + 1);
      } else {
        DispatchFromUnfold(next, w, e, curr, k, res);
        var r := StepOf(next, w, e, k).value;
        var w1 := After(w, e, k, r, ApplyAll(r.effects, w.env).value);
        SameAfter(next, w, e, curr, k, r, ApplyAll(r.effects, w.env).value);
        DueEffectsFrame(next, w, w1, e, curr, k + 1);
        DispatchFromEffects(next, w1, e, curr, k + 1, Combine(e, res, r.yielded));
        ApplyAllAppend(r.effects, DueEffects(next, w, e, curr, k + 1), w.env);
      }
    }
  }

  /**
   * The result of a completed dispatch from k is `res` or-ed with the due
   * managers' yields for MAX_INSTS, and `res` or "some manager handles e"
   * for the other events, whatever their handlers yield.
   */
  lemma {:induction false} DispatchFromResult(next: Stepper, w: World, e: ExitEvent, curr: int, k: nat, res: bool)
    requires k <= |w.snaps| && |w.snaps| <= |w.handlers| && StepsOk(next, w, e, curr, k)
    requires DispatchFrom(next, w, e, curr, k, res).Ok?
    ensures var res' := DispatchFrom(next, w, e, curr, k, res).value.1;
      && (e == ExitEvent.MaxInsts ==>
            (res' <==> res || exists j :: k <= j < |w.snaps| && Due(w, e, curr, j) && StepOf(next, w, e, j).value.yielded))
      && (e != ExitEvent.MaxInsts ==>
            (res' <==> res || exists j :: k <= j < |w.snaps| && e in w.handlers[j]))
    decreases |w.snaps| - k
  {
    if k < |w.snaps| {
      if !Due(w, e, curr, k) {
        assert DispatchFrom(next, w, e, curr, k, res) == DispatchFrom(next, w, e, curr, k + 1, res);
        DispatchFromResult(next, w, e, curr, k + 1, res);
      } else {
        DispatchFromUnfold(next, w, e, curr, k, res);
        var r := StepOf(next, w, e, k).value;
        var w1 := After(w, e, k, r, ApplyAll(r.effects, w.env).value);
        SameAfter(next, w, e, curr, k, r, ApplyAll(r.effects, w.env).value);
        DispatchFromResult(next, w1, e, curr, k + 1, Combine(e, res, r.yielded));
      }
    }
  }

  /** The managers after k look the same in the world after manager k's step. */
  lemma SameAfter(next: Stepper, w: World, e: ExitEvent, curr: int, k: nat, r: Reaction<Snapshot>, env': Env)
    requires k < |w.snaps| <= |w.handlers| && e in w.handlers[k]
    ensures var w1 := After(w, e, k, r, env');
      && (forall j :: k < j < |w.snaps| ==> w1.snaps[j] == w.snaps[j] && w1.handlers[j] == w.handlers[j])
      && (forall j :: k < j < |w.snaps| ==> (Due(w1, e, curr, j) <==> Due(w, e, curr, j)))
      && (forall j :: k < j < |w.snaps| && e in w.handlers[j] ==> StepOf(next, w1, e, j) == StepOf(next, w, e, j))
  {
  }

  /** DueEffects from k only looks at the managers from k on. */
  lemma {:induction false} DueEffectsFrame(next: Stepper, w: World, w1: World, e: ExitEvent, curr: int, k: nat)
    requires |w.snaps| <= |w.handlers| && k <= |w.snaps| && StepsOk(next, w, e, curr, k)
    requires |w1.snaps| == |w.snaps| && |w1.handlers| == |w.handlers|
    requires forall j :: k <= j < |w.snaps| ==> w1.snaps[j] == w.snaps[j] && w1.handlers[j] == w.handlers[j]
    ensures StepsOk(next, w1, e, curr, k)
    ensures DueEffects(next, w1, e, curr, k) == DueEffects(next, w, e, curr, k)
    decreases |w.snaps| - k
  {
    assert forall j :: k <= j < |w.snaps| ==> (Due(w1, e, curr, j) <==> Due(w, e, curr, j));
    if k < |w.snaps| {
      DueEffectsFrame(next, w, w1, e, curr, k + 1);
    }
  }

  /**
   * The MAX_INSTS handler: manager j's handler runs exactly when it is
   * Due, that is when it handles MAX_INSTS and its pending instruction
   * trigger is at or before the current instruction; every other manager
   * and its generators are left as they were, and the result is the OR of
   * the yields of the handlers that ran.
   */
  lemma MaxInstsDispatch(w: World)
    requires Dispatch(w, ExitEvent.MaxInsts).Ok?
    ensures var curr := CurrentTime(w).instruction.value;
      var (w', res) := Dispatch(w, ExitEvent.MaxInsts).value;
      && |w.snaps| <= |w.handlers| && StepsOk(Next, w, ExitEvent.MaxInsts, curr, 0)
      && |w'.snaps| == |w.snaps| && |w'.handlers| == |w.handlers|
      && (forall j :: 0 <= j < |w.snaps| && !Due(w, ExitEvent.MaxInsts, curr, j) ==>
            w'.snaps[j] == w.snaps[j] && w'.handlers[j] == w.handlers[j])
      && (res <==> exists j :: 0 <= j < |w.snaps| && Due(w, ExitEvent.MaxInsts, curr, j) &&
                              StepOf(Next, w, ExitEvent.MaxInsts, j).value.yielded)
  {
    var curr := CurrentTime(w).instruction.value;
    DispatchOkRegistered(w, ExitEvent.MaxInsts);
    DispatchFromSnaps(Next, w, ExitEvent.MaxInsts, curr, 0, false);
    DispatchFromHandlers(Next, w, ExitEvent.MaxInsts, curr, 0, false);
    DispatchFromResult(Next, w, ExitEvent.MaxInsts, curr, 0, false);
  }

  /**
   * The literal `manager_res or True`: an unscheduled event's handler
   * yields True exactly when some manager handles that event, whatever
   * the managers' handlers yield.
   */
  lemma UnscheduledDispatch(w: World, e: ExitEvent)
    requires e != ExitEvent.MaxInsts
    requires Dispatch(w, e).Ok?
    ensures |w.snaps| <= |w.handlers|
    ensures (Dispatch(w, e).value.1 <==> exists j :: 0 <= j < |w.snaps| && e in w.handlers[j])
  {
    var curr := CurrentTime(w).instruction.value;
    DispatchOkRegistered(w, e);
    DispatchFromSnaps(Next, w, e, curr, 0, false);
    DispatchFromResult(Next, w, e, curr, 0, false);
  }

  /** Dispatch reaches a manager without handlers (register not called) and raises IndexError. */
  lemma {:induction false} DispatchBeforeRegisterFails(next: Stepper, w: World, e: ExitEvent, curr: int, k: nat, res: bool)
    requires k <= |w.handlers| < |w.snaps|
    ensures DispatchFrom(next, w, e, curr, k, res).Err?
    decreases |w.handlers| - k
  {
    if k < |w.handlers| {
      if !Due(w, e, curr, k) {
        DispatchBeforeRegisterFails(next, w, e, curr, k + 1, res);
      } else if DispatchFrom(next, w, e, curr, k, res).Ok? {
        DispatchFromUnfold(next, w, e, curr, k, res);
        var r := StepOf(next, w, e, k).value;
        DispatchBeforeRegisterFails(next, After(w, e, k, r, ApplyAll(r.effects, w.env).value), e, curr, k + 1, Combine(e, res, r.yielded));
      }
    }
  }

  /** A completed dispatch has visited handlers for every manager. */
  lemma DispatchOkRegistered(w: World, e: ExitEvent)
    requires Dispatch(w, e).Ok?
    ensures |w.snaps| <= |w.handlers|
  {
    if |w.handlers| < |w.snaps| {
      DispatchBeforeRegisterFails(Next, w, e, CurrentTime(w).instruction.value, 0, false);
    }
  }
}
