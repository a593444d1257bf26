/**
 * The event managers as objects (util/event_managers/): the state every
 * manager shares, the four concrete managers, and the EventCoordinator that
 * registers them with a simulator and forwards exit events to their
 * handler generators. Each handler method is proved to do what the
 * manager's step function says, and the coordinator's handlers what
 * Coordination.Dispatch says.
 */
module EventManagers {
  import opened Results
  import opened EventTimes
  import opened Handlers
  import opened ManagerSpecs
  import opened Coordination
  import opened Gem5
  import opened Processors
  import P = PeriodicROI
  import T = TakeCheckpoints
  import R = RestoreCheckpoint
  import S = SimpleROI

  /** `_coordinator` and `_next_event`, which every EventManager has (event_manager.py:289-292). */
  class EventManagerBase {
    var coordinator: EventCoordinator?
    var nextEvent: EventTime

    constructor ()
      ensures coordinator == null && nextEvent == Unset
    {
      coordinator := null;
      nextEvent := Unset;
    }

    /** `set_next_event` (event_manager.py:302-308): the interval is stored as given. */
    method SetNextEvent(interval: EventTime)
      modifies this`nextEvent
      ensures nextEvent == interval
    {
      nextEvent := interval;
    }

    /** `clear_next_event` (event_manager.py:310-312). */
    method ClearNextEvent()
      modifies this`nextEvent
      ensures nextEvent == Unset
    {
      nextEvent := Unset;
    }

    /** `register` (event_manager.py:332-337). */
    method Register(c: EventCoordinator)
      modifies this`coordinator
      ensures coordinator == c
    {
      coordinator := c;
    }

    function Coordinators(): set<EventCoordinator>
      reads this`coordinator
    {
      if coordinator == null then {} else {coordinator}
    }

    /** The switchable processor a switch would change, if there is one. */
    function SwitchTarget(): set<CustomX86SwitchableProcessor>
      reads this`coordinator, Coordinators()`simulator
    {
      if coordinator == null then {} else coordinator.SwitchTarget()
    }

    function Simulators(): set<Simulator>
      reads this`coordinator, Coordinators()`simulator
    {
      if coordinator == null then {} else coordinator.Simulators()
    }

    /** The m5 module the manager calls is its coordinator's. */
    predicate Linked(m5: M5)
      reads this`coordinator
    {
      coordinator != null ==> coordinator.m5 == m5
    }

    /**
     * The manager's view of gem5: through its coordinator when it has one;
     * otherwise only the m5 module.
     */
    function EnvOf(m5: M5): Env
      requires Linked(m5)
      reads this`coordinator, m5`simInsts, m5`trace
      reads Coordinators()`simulator, Coordinators()`totalInstructions, Simulators()`instantiated
      reads SwitchTarget()`currentIsStart, SwitchTarget()`switchedTo
    {
      if coordinator == null then Env(false, false, false, NoProcessor, 0, m5.simInsts, m5.trace)
      else coordinator.EnvView()
    }

    /** `get_current_time` (event_manager.py:321-330). */
    method GetCurrentTime() returns (t: EventTime)
      ensures coordinator == null ==> t == EventTime(Some(0), Some(0), Some(0))
      ensures coordinator != null ==> t == CurrentTime(World([], [], coordinator.EnvView(), coordinator.totalCycles))
    {
      if coordinator == null {
        t := EventTime(Some(0), Some(0), Some(0));
      } else {
        t := coordinator.GetCurrentTime();
      }
    }

    /**
     * `switch_processor` (event_manager.py:339-359): validate the simulator,
     * then switch its processor, which must have a `switch()` method.
     */
    method SwitchProcessor(m5: M5) returns (r: Outcome)
      requires Linked(m5)
      modifies SwitchTarget()`currentIsStart, SwitchTarget()`switchedTo
      ensures var out := Apply(Effect.SwitchProcessor, old(EnvOf(m5)));
        && (r.Pass? <==> out.Ok?)
        && (out.Err? ==> r.error == out.error)
        && (out.Ok? ==> EnvOf(m5) == out.value)
    {
      r := ValidateSimulator(EnvOf(m5));
      if r.Fail? {
        return;
      }
      match coordinator.simulator.processor
      case Fixed(_) =>
        r := Fail(AttributeError(NoSwitchMethod));
      case Switchable(sp) =>
        sp.Switch();
    }

    /** `self._coordinator.reset_stats()`, which needs a coordinator. */
    method ResetCoordinatorStats(m5: M5) returns (r: Outcome)
      requires Linked(m5)
      modifies m5`simInsts, m5`trace, Coordinators()`totalInstructions
      ensures var out := Apply(CoordinatorResetStats, old(EnvOf(m5)));
        && (r.Pass? <==> out.Ok?)
        && (out.Err? ==> r.error == out.error)
        && (out.Ok? ==> EnvOf(m5) == out.value)
    {
      if coordinator == null {
        return Fail(AttributeError(NoCoordinatorToReset));
      }
      coordinator.ResetStats();
      r := Pass;
    }

    /** `m5.stats.dump()`. */
    method StatsDump(m5: M5)
      requires Linked(m5)
      modifies m5`simInsts, m5`trace
      ensures EnvOf(m5) == Apply(Effect.StatsDump, old(EnvOf(m5))).value
    {
      m5.StatsDump();
    }

    /** `m5.stats.reset()`. */
    method StatsReset(m5: M5)
      requires Linked(m5)
      modifies m5`simInsts, m5`trace
      ensures EnvOf(m5) == Apply(Effect.StatsReset, old(EnvOf(m5))).value
    {
      m5.StatsReset();
    }

    /** `m5.checkpoint(dir)`. */
    method Checkpoint(m5: M5)
      requires Linked(m5)
      modifies m5`simInsts, m5`trace
      ensures EnvOf(m5) == Apply(TakeCheckpoint, old(EnvOf(m5))).value
    {
      m5.Checkpoint();
    }
  }

  /** PeriodicROIManager (roi/periodic.py:133-455). */
  class PeriodicROIManager {
    const base: EventManagerBase
    const config: P.Config
    /** `_current_phase` and `_completed_rois`. */
    var phase: P.Phase
    var completedRois: int

    /** The manager's state as the step functions see it. */
    function State(): P.State
      reads this`phase, this`completedRois, base`nextEvent
    {
      P.State(phase, completedRois, base.nextEvent)
    }

    /** `__init__` (periodic.py:134-193) with its configuration already settled. */
    constructor (c: P.Config)
      ensures config == c && fresh(base) && base.coordinator == null
      ensures State() == P.Initial(c)
    {
      config := c;
      var b := new EventManagerBase();
      base := b;
      var s := P.Initial(c);
      phase := s.phase;
      completedRois := s.completedRois;
      new;
      base.SetNextEvent(s.nextEvent);
    }

    /** `_handle_max_insts` (periodic.py:195-329), resumed at `g`. */
    method HandleMaxInsts(m5: M5, g: Resume) returns (r: Result<(Resume, bool)>)
      requires base.Linked(m5) && P.MaxInstsResume(g)
      modifies this`phase, this`completedRois, base`nextEvent, m5`simInsts, m5`trace
      modifies base.SwitchTarget()`currentIsStart, base.SwitchTarget()`switchedTo, base.Coordinators()`totalInstructions
      ensures Performs(Ok(P.MaxInsts(config, old(State()), g)), old(base.EnvOf(m5)), r, State(), base.EnvOf(m5))
    {
      if g == AfterStopYield {
        return Ok((AtStart, false));
      }
      match phase {
        case ROI =>
          r := EndRoi(m5);
          return;
        case Warmup =>
          var o := base.ResetCoordinatorStats(m5);
          if o.Fail? {
            return Err(o.error);
          }
          phase := P.ROI;
          base.SetNextEvent(Instructions(config.roi));
        case FFWork =>
          var o := base.SwitchProcessor(m5);
          if o.Fail? {
            return Err(o.error);
          }
          phase := P.Warmup;
          base.SetNextEvent(Instructions(config.warmup));
        case FFInit =>
          phase := P.FFWork;
          base.SetNextEvent(Instructions(config.ff));
        case NoWork =>
          base.SetNextEvent(Unset);
      }
      r := Ok((AtStart, false));
    }

    /**
     * Leaving an ROI, on MAX_INSTS (periodic.py:206-222) and on WORKEND
     * (periodic.py:406-436): dump its statistics block, count it, and
     * switch to the fast-forward processor.
     */
    method ExitRoi(m5: M5) returns (o: Outcome)
      requires base.Linked(m5)
      modifies this`completedRois, m5`simInsts, m5`trace
      modifies base.SwitchTarget()`currentIsStart, base.SwitchTarget()`switchedTo
      ensures completedRois == old(completedRois) + 1
      ensures var out := ApplyAll([StatsDump, SwitchProcessor], old(base.EnvOf(m5)));
        && (o.Pass? <==> out.Ok?)
        && (out.Err? ==> o.error == out.error)
        && (out.Ok? ==> base.EnvOf(m5) == out.value)
    {
      ApplyTwo(StatsDump, SwitchProcessor, base.EnvOf(m5));
      base.StatsDump(m5);
      completedRois := completedRois + 1;
      o := base.SwitchProcessor(m5);
    }

    /**
     * The end of an ROI on MAX_INSTS (periodic.py:206-258): dump, count,
     * switch to fast-forward; at the limit either stop the run after a
     * statistics reset or, with `continue_sim`, carry on unscheduled.
     */
    method EndRoi(m5: M5) returns (r: Result<(Resume, bool)>)
      requires base.Linked(m5) && phase == P.ROI
      modifies this`phase, this`completedRois, base`nextEvent, m5`simInsts, m5`trace
      modifies base.SwitchTarget()`currentIsStart, base.SwitchTarget()`switchedTo, base.Coordinators()`totalInstructions
      ensures Performs(Ok(P.MaxInsts(config, old(State()), AtStart)), old(base.EnvOf(m5)), r, State(), base.EnvOf(m5))
    {
      ghost var env0 := base.EnvOf(m5);
      ApplyThree(StatsDump, SwitchProcessor, CoordinatorResetStats, env0);
      ApplyTwo(StatsDump, SwitchProcessor, env0);
      var o := ExitRoi(m5);
      if o.Fail? {
        return Err(o.error);
      }
      phase := P.FFWork;
      if P.LimitReached(config, completedRois) {
        if !config.continueSim {
          o := base.ResetCoordinatorStats(m5);
          match o {
            case Fail(err) => return Err(err);
            case Pass => return Ok((AfterStopYield, true));
          }
        }
      } else {
        base.SetNextEvent(Instructions(config.ff));
      }
      r := Ok((AtStart, false));
    }

    /** `_handle_workbegin` (periodic.py:331-383). */
    method HandleWorkBegin(m5: M5) returns (r: Result<(Resume, bool)>)
      requires base.Linked(m5)
      modifies this`phase, this`completedRois, base`nextEvent
      ensures Performs(P.WorkBegin(config, old(State())), old(base.EnvOf(m5)), r, State(), base.EnvOf(m5))
    {
      completedRois := 0;
      var interval;
      if config.initFF != 0 {
        phase := P.FFInit;
        interval := config.initFF;
      } else {
        phase := P.FFWork;
        interval := config.ff;
      }
      if base.nextEvent.instruction.None? {
        return Err(ValueError(NextEventNone));
      }
      base.SetNextEvent(Instructions(base.nextEvent.instruction.value + interval));
      r := Ok((AtStart, false));
    }

    /** `_handle_workend` (periodic.py:385-443). */
    method HandleWorkEnd(m5: M5) returns (r: Result<(Resume, bool)>)
      requires base.Linked(m5)
      modifies this`phase, this`completedRois, m5`simInsts, m5`trace
      modifies base.SwitchTarget()`currentIsStart, base.SwitchTarget()`switchedTo, base.Coordinators()`totalInstructions
      ensures Performs(Ok(P.WorkEnd(config, old(State()))), old(base.EnvOf(m5)), r, State(), base.EnvOf(m5))
    {
      ghost var env0 := base.EnvOf(m5);
      ghost var effects := P.WorkEnd(config, State()).effects;
      if phase == P.ROI {
        ApplyThree(StatsDump, SwitchProcessor, CoordinatorResetStats, env0);
        ApplyTwo(StatsDump, SwitchProcessor, env0);
        assert effects == [StatsDump, SwitchProcessor, CoordinatorResetStats];
        var o := ExitRoi(m5);
        if o.Fail? {
          return Err(o.error);
        }
      } else if phase == P.Warmup {
        ApplyTwo(SwitchProcessor, CoordinatorResetStats, env0);
        assert effects == [SwitchProcessor, CoordinatorResetStats];
        var o := base.SwitchProcessor(m5);
        if o.Fail? {
          return Err(o.error);
        }
      } else {
        assert effects == [CoordinatorResetStats];
        assert [CoordinatorResetStats][1..] == [];
      }
      var o := base.ResetCoordinatorStats(m5);
      if o.Fail? {
        return Err(o.error);
      }
      phase := P.NoWork;
      r := Ok((AtStart, false));
    }
  }

  /** TakeCheckpointsManager (checkpoint/take.py:46-140). */
  class TakeCheckpointsManager {
    const base: EventManagerBase
    const config: T.Config
    /** `_checkpoint_num`. */
    var checkpointNum: int

    function State(): T.State
      reads this`checkpointNum, base`nextEvent
    {
      T.State(checkpointNum, base.nextEvent)
    }

    /** `__init__` (take.py:47-66) with the configuration T.MakeConfig settles. */
    constructor (c: T.Config)
      ensures config == c && fresh(base) && base.coordinator == null
      ensures State() == T.Initial()
    {
      config := c;
      base := new EventManagerBase();
      checkpointNum := 0;
    }

    /** Count and take a checkpoint; schedule the next one while more are wanted. */
    method TakeOne(m5: M5) returns (stop: bool)
      requires base.Linked(m5)
      modifies this`checkpointNum, base`nextEvent, m5`simInsts, m5`trace
      ensures var x := T.Checkpointed(config, old(State()), [], AtStart);
        && State() == x.state && stop == x.yielded
        && base.EnvOf(m5) == Apply(TakeCheckpoint, old(base.EnvOf(m5))).value
    {
      checkpointNum := checkpointNum + 1;
      base.Checkpoint(m5);
      stop := !T.MoreToTake(config, checkpointNum);
      if !stop {
        base.SetNextEvent(Instructions(config.interval));
      }
    }

    /** `_handle_maxinsts` (take.py:82-103). */
    method HandleMaxInsts(m5: M5) returns (r: Result<(Resume, bool)>)
      requires base.Linked(m5)
      modifies this`checkpointNum, base`nextEvent, m5`simInsts, m5`trace
      ensures Performs(Ok(T.MaxInsts(config, old(State()))), old(base.EnvOf(m5)), r, State(), base.EnvOf(m5))
    {
      assert [TakeCheckpoint][1..] == [];
      var stop := TakeOne(m5);
      r := Ok((AtStart, stop));
    }

    /** `_handle_workbegin` (take.py:105-128), resumed at `g`. */
    method HandleWorkBegin(m5: M5, g: Resume) returns (r: Result<(Resume, bool)>)
      requires base.Linked(m5)
      modifies this`checkpointNum, base`nextEvent, m5`simInsts, m5`trace
      ensures Performs(T.WorkBegin(config, old(State()), g), old(base.EnvOf(m5)), r, State(), base.EnvOf(m5))
    {
      if g == Finished {
        return Err(StopIteration);
      }
      ApplyTwo(StatsReset, TakeCheckpoint, base.EnvOf(m5));
      base.StatsReset(m5);
      ghost var s1 := State();
      var stop := TakeOne(m5);
      assert T.Checkpointed(config, s1, [], AtStart).state == T.Checkpointed(config, old(State()), [StatsReset], Finished).state;
      r := Ok((Finished, stop));
    }

    /** `_handle_workend` (take.py:130-140), resumed at `g`. */
    method HandleWorkEnd(m5: M5, g: Resume) returns (r: Result<(Resume, bool)>)
      requires base.Linked(m5)
      modifies m5`simInsts, m5`trace
      ensures Performs(T.WorkEnd(old(State()), g), old(base.EnvOf(m5)), r, State(), base.EnvOf(m5))
    {
      if g == Finished {
        return Err(StopIteration);
      }
      ApplyTwo(StatsDump, StatsReset, base.EnvOf(m5));
      base.StatsDump(m5);
      base.StatsReset(m5);
      r := Ok((Finished, true));
    }
  }

  /** RestoreCheckpointManager (checkpoint/restore.py:49-156). */
  class RestoreCheckpointManager {
    const base: EventManagerBase
    const config: R.Config

    function State(): R.State
      reads base`nextEvent
    {
      R.State(base.nextEvent)
    }

    /** `__init__` (restore.py:50-73) with its configuration already settled. */
    constructor (c: R.Config)
      ensures config == c && fresh(base) && base.coordinator == null
      ensures State() == R.Initial
    {
      config := c;
      base := new EventManagerBase();
    }

    /** `initialize` (restore.py:75-101). */
    method Initialize(m5: M5)
      requires base.Linked(m5)
      modifies base`nextEvent, m5`simInsts, m5`trace
      ensures var setup := R.Initialize(config, old(State()));
        && State() == setup.state
        && ApplyAll(setup.effects, old(base.EnvOf(m5))) == Ok(base.EnvOf(m5))
    {
      if config.warmup > 0 {
        base.SetNextEvent(Instructions(config.warmup));
      } else {
        assert [StatsReset][1..] == [];
        base.StatsReset(m5);
        if config.roi > 0 {
          base.SetNextEvent(Instructions(config.roi));
        }
      }
    }

    /** Leaving the ROI: dump, reset and stop. */
    method EndRoi(m5: M5) returns (r: Result<(Resume, bool)>)
      requires base.Linked(m5)
      modifies m5`simInsts, m5`trace
      ensures Performs(Ok(R.EndRoi(old(State()))), old(base.EnvOf(m5)), r, State(), base.EnvOf(m5))
    {
      ApplyTwo(StatsDump, StatsReset, base.EnvOf(m5));
      base.StatsDump(m5);
      base.StatsReset(m5);
      r := Ok((Finished, true));
    }

    /** `_handle_maxinsts` (restore.py:125-156), resumed at `g`. */
    method HandleMaxInsts(m5: M5, g: Resume) returns (r: Result<(Resume, bool)>)
      requires base.Linked(m5) && R.MaxInstsResume(g)
      modifies base`nextEvent, m5`simInsts, m5`trace
      ensures Performs(R.MaxInsts(config, old(State()), g), old(base.EnvOf(m5)), r, State(), base.EnvOf(m5))
    {
      if g == Finished {
        return Err(StopIteration);
      }
      if g == AtStart && config.warmup > 0 {
        assert [StatsReset][1..] == [];
        base.StatsReset(m5);
        if config.roi > 0 {
          base.SetNextEvent(Instructions(config.roi));
        }
        return Ok((AfterWarmupYield, false));
      }
      r := EndRoi(m5);
    }

    /** `_handle_workend` (restore.py:113-123), resumed at `g`. */
    method HandleWorkEnd(m5: M5, g: Resume) returns (r: Result<(Resume, bool)>)
      requires base.Linked(m5)
      modifies m5`simInsts, m5`trace
      ensures Performs(R.WorkEnd(old(State()), g), old(base.EnvOf(m5)), r, State(), base.EnvOf(m5))
    {
      if g == Finished {
        return Err(StopIteration);
      }
      r := EndRoi(m5);
    }
  }

  /** SimpleROIManager (roi/simple.py:19-63): no state beyond the shared one. */
  class SimpleROIManager {
    const base: EventManagerBase

    constructor ()
      ensures fresh(base) && base.coordinator == null && base.nextEvent == Unset
    {
      base := new EventManagerBase();
    }

    /** `_handle_workbegin` (simple.py:34-47): switch to the detailed processor, then reset. */
    method HandleWorkBegin(m5: M5) returns (r: Result<(Resume, bool)>)
      requires base.Linked(m5)
      modifies m5`simInsts, m5`trace, base.SwitchTarget()`currentIsStart, base.SwitchTarget()`switchedTo
      ensures Performs(Ok(S.WorkBegin()), old(base.EnvOf(m5)), r, (), base.EnvOf(m5))
    {
      ApplyTwo(SwitchProcessor, StatsReset, base.EnvOf(m5));
      var o := base.SwitchProcessor(m5);
      if o.Fail? {
        return Err(o.error);
      }
      base.StatsReset(m5);
      r := Ok((AtStart, false));
    }

    /** `_handle_workend` (simple.py:49-63): dump, reset, then switch back. */
    method HandleWorkEnd(m5: M5) returns (r: Result<(Resume, bool)>)
      requires base.Linked(m5)
      modifies m5`simInsts, m5`trace, base.SwitchTarget()`currentIsStart, base.SwitchTarget()`switchedTo
      ensures Performs(Ok(S.WorkEnd()), old(base.EnvOf(m5)), r, (), base.EnvOf(m5))
    {
      ApplyThree(StatsDump, StatsReset, SwitchProcessor, base.EnvOf(m5));
      base.StatsDump(m5);
      base.StatsReset(m5);
      var o := base.SwitchProcessor(m5);
      if o.Fail? {
        return Err(o.error);
      }
      r := Ok((AtStart, false));
    }
  }

  /** One entry of the coordinator's `_managers` list. */
  datatype Manager =
    | Periodic(p: PeriodicROIManager)
    | Take(t: TakeCheckpointsManager)
    | Restore(x: RestoreCheckpointManager)
    | Simple(s: SimpleROIManager)

  function BaseOf(m: Manager): EventManagerBase {
    match m
    case Periodic(p) => p.base
    case Take(t) => t.base
    case Restore(x) => x.base
    case Simple(s) => s.base
  }

  /** The manager object an entry wraps. */
  function ObjectOf(m: Manager): object {
    match m
    case Periodic(p) => p
    case Take(t) => t
    case Restore(x) => x
    case Simple(s) => s
  }

  function PeriodicsOf(m: Manager): set<PeriodicROIManager> {
    if m.Periodic? then {m.p} else {}
  }

  function TakesOf(m: Manager): set<TakeCheckpointsManager> {
    if m.Take? then {m.t} else {}
  }

  /** The manager as the coordination functions see it. */
  function SnapOf(m: Manager): Snapshot
    reads {BaseOf(m)}`nextEvent, PeriodicsOf(m)`phase, PeriodicsOf(m)`completedRois, TakesOf(m)`checkpointNum
  {
    match m
    case Periodic(p) => PeriodicSnap(p.config, p.State())
    case Take(t) => TakeSnap(t.config, t.State())
    case Restore(x) => RestoreSnap(x.config, x.State())
    case Simple(s) => SimpleSnap(s.base.nextEvent)
  }

  /** The events a manager handles, which its class fixes. */
  function HandledOf(m: Manager): set<ExitEvent> {
    match m
    case Periodic(_) => P.Handled
    case Take(_) => T.Handled
    case Restore(_) => R.Handled
    case Simple(_) => S.Handled
  }

  /** `get_event_handlers()`: a fresh generator for each handled event. */
  function FreshGenerators(m: Manager): map<ExitEvent, Resume> {
    FreshMap(HandledOf(m))
  }

  function BasesIn(ms: seq<Manager>): (r: set<EventManagerBase>)
    ensures forall k :: 0 <= k < |ms| ==> BaseOf(ms[k]) in r
  {
    set k | 0 <= k < |ms| :: BaseOf(ms[k])
  }

  function PeriodicsIn(ms: seq<Manager>): (r: set<PeriodicROIManager>)
    ensures forall k :: 0 <= k < |ms| ==> PeriodicsOf(ms[k]) <= r
  {
    set k | 0 <= k < |ms| && ms[k].Periodic? :: ms[k].p
  }

  function TakesIn(ms: seq<Manager>): (r: set<TakeCheckpointsManager>)
    ensures forall k :: 0 <= k < |ms| ==> TakesOf(ms[k]) <= r
  {
    set k | 0 <= k < |ms| && ms[k].Take? :: ms[k].t
  }

  /** The managers' snapshots in list order. */
  function SnapsIn(ms: seq<Manager>): (r: seq<Snapshot>)
    reads BasesIn(ms)`nextEvent, PeriodicsIn(ms)`phase, PeriodicsIn(ms)`completedRois, TakesIn(ms)`checkpointNum
    ensures |r| == |ms| && forall k :: 0 <= k < |ms| ==> r[k] == SnapOf(ms[k])
    decreases |ms|
  {
    if ms == [] then []
    else
      assert forall k :: 0 <= k < |ms| - 1 ==> ms[1..][k] == ms[k + 1];
      [SnapOf(ms[0])] + SnapsIn(ms[1..])
  }

  /** EventCoordinator (event_manager.py:91-280). */
  class EventCoordinator {
    /** `_managers`, never reassigned. */
    const managers: seq<Manager>
    /** The m5 module the managers and the coordinator call. */
    const m5: M5
    var simulator: Simulator?
    /** `_handlers`: for each registered manager, its handler generators by event. */
    var handlers: seq<map<ExitEvent, Resume>>
    var totalInstructions: int
    var totalCycles: int

    function Bases(): set<EventManagerBase> {
      BasesIn(managers)
    }

    function Periodics(): set<PeriodicROIManager> {
      PeriodicsIn(managers)
    }

    function Takes(): set<TakeCheckpointsManager> {
      TakesIn(managers)
    }

    function SwitchTarget(): set<CustomX86SwitchableProcessor>
      reads this`simulator
    {
      if simulator != null && simulator.processor.Switchable? then {simulator.processor.sp} else {}
    }

    function Simulators(): set<Simulator>
      reads this`simulator
    {
      if simulator == null then {} else {simulator}
    }

    /** What the handlers' side effects read and change, seen from the coordinator. */
    function EnvView(): Env
      reads this`simulator, this`totalInstructions, m5`simInsts, m5`trace, Simulators()`instantiated
      reads SwitchTarget()`currentIsStart, SwitchTarget()`switchedTo
    {
      Env(true, simulator != null, simulator != null && simulator.instantiated,
          if simulator == null then NoProcessor else View(simulator.processor),
          totalInstructions, m5.simInsts, m5.trace)
    }

    function Snaps(): (r: seq<Snapshot>)
      reads Bases()`nextEvent, Periodics()`phase, Periodics()`completedRois, Takes()`checkpointNum
      ensures |r| == |managers| && forall k :: 0 <= k < |managers| ==> r[k] == SnapOf(managers[k])
    {
      SnapsIn(managers)
    }

    /** Everything the coordination functions look at. */
    function WorldOf(): World
      reads this`simulator, this`totalInstructions, m5`simInsts, m5`trace, Simulators()`instantiated
      reads SwitchTarget()`currentIsStart, SwitchTarget()`switchedTo
      reads this`handlers, this`totalCycles, Bases()`nextEvent, Periodics()`phase, Periodics()`completedRois, Takes()`checkpointNum
    {
      World(Snaps(), handlers, EnvView(), totalCycles)
    }

    /** The managers hold disjoint objects. */
    predicate Distinct() {
      forall i, j :: 0 <= i < |managers| && 0 <= j < |managers| && i != j ==>
        ObjectOf(managers[i]) != ObjectOf(managers[j]) && BaseOf(managers[i]) != BaseOf(managers[j])
    }

    /** Every manager is registered with this coordinator. */
    predicate Linked()
      reads Bases()`coordinator
    {
      forall k :: 0 <= k < |managers| ==> BaseOf(managers[k]).coordinator == this
    }

    /**
     * The coordinator's invariant: distinct managers, every manager with
     * handlers registered here, and its handler generators those of its
     * class at points where they can be suspended.
     */
    predicate Valid()
      reads this`handlers, Bases()`nextEvent, Periodics()`phase, Periodics()`completedRois, Takes()`checkpointNum
      reads Bases()`coordinator
    {
      && Distinct()
      && (|handlers| == 0 || (Linked() && |handlers| >= |managers|))
      && HandlersMatch(Snaps(), handlers)
    }

    /** `__init__` (event_manager.py:94-111). */
    constructor (managers: seq<Manager>, m5: M5)
      requires forall i, j :: 0 <= i < |managers| && 0 <= j < |managers| && i != j ==>
        ObjectOf(managers[i]) != ObjectOf(managers[j]) && BaseOf(managers[i]) != BaseOf(managers[j])
      ensures this.managers == managers && this.m5 == m5
      ensures simulator == null && handlers == [] && totalInstructions == 0 && totalCycles == 0
      ensures Valid()
    {
      this.managers := managers;
      this.m5 := m5;
      simulator := null;
      handlers := [];
      totalInstructions := 0;
      totalCycles := 0;
    }

    /**
     * `reset_stats` (event_manager.py:143-155): without a simulator nothing
     * happens; otherwise `simInsts` moves into the instruction carry and
     * the statistics are reset.
     */
    method ResetStats()
      modifies this`totalInstructions, m5`simInsts, m5`trace
      ensures simulator == null ==> totalInstructions == old(totalInstructions) && unchanged(m5)
      ensures simulator != null ==>
        && totalInstructions == old(totalInstructions) + old(m5.simInsts)
        && m5.simInsts == 0 && m5.trace == old(m5.trace) + [Reset]
    {
      if simulator == null {
        return;
      }
      totalInstructions := totalInstructions + m5.simInsts;
      m5.StatsReset();
    }

    /** `get_current_time` (event_manager.py:157-173). */
    method GetCurrentTime() returns (t: EventTime)
      ensures t == CurrentTime(World([], [], EnvView(), totalCycles))
    {
      if simulator == null || !simulator.instantiated {
        return EventTime(Some(0), Some(0), Some(0));
      }
      t := EventTime(Some(totalInstructions + m5.simInsts), Some(totalCycles), Some(0));
    }

    /** The instruction counts scheduled on the simulator so far. */
    function ScheduledSoFar(): seq<int>
      reads this`simulator, Simulators()`scheduledMaxInsts
    {
      if simulator == null then [] else simulator.scheduledMaxInsts
    }

    /** `_schedule`'s scan (event_manager.py:180-199): the managers' next events merged in list order. */
    method ClosestEvent(ghost w: World) returns (closest: EventTime)
      requires Mirrors(w)
      ensures Mirrors(w) && closest == Closest(NextEvents(w.snaps))
    {
      ghost var events := NextEvents(w.snaps);
      closest := Unset;
      var k := 0;
      while k < |managers|
        invariant 0 <= k <= |managers|
        invariant closest == Closest(events[..k])
      {
        var next := BaseOf(managers[k]).nextEvent;
        assert next == events[k];
        ClosestPrefix(events, k);
        closest := Merge(closest, next);
        k := k + 1;
      }
      assert events[..k] == events;
    }

    /** `schedule_max_insts(n)` on the simulator, when one is set. */
    method RequestMaxInsts(ghost w: World, n: int)
      requires Mirrors(w)
      modifies Simulators()`scheduledMaxInsts
      ensures Mirrors(w) && simulator == old(simulator) && Linked() == old(Linked())
      ensures ScheduledSoFar() == old(ScheduledSoFar()) + (if simulator != null then [n] else [])
    {
      if simulator != null {
        simulator.ScheduleMaxInsts(n);
      }
    }

    /**
     * `_schedule` (event_manager.py:175-216) in the mirrored world `w`:
     * schedule a MAX_INSTS exit at the closest instruction count, then
     * raise for any cycle or tick trigger.
     */
    method Schedule(ghost w: World) returns (r: Outcome)
      requires Mirrors(w)
      modifies Simulators()`scheduledMaxInsts
      ensures Mirrors(w) && simulator == old(simulator) && Linked() == old(Linked())
      ensures ScheduledSoFar() == old(ScheduledSoFar()) + (if Scheduled(w).Some? then [Scheduled(w).value] else [])
      ensures r == (if ScheduleError(w).Some? then Fail(ScheduleError(w).value) else Pass)
    {
      var current := CurrentTime(World([], [], EnvView(), totalCycles));
      var closest := ClosestEvent(w);
      if closest.instruction.Some? && current.instruction.Some? {
        RequestMaxInsts(w, closest.instruction.value);
      }
      if closest.cycle.Some? && current.cycle.Some? {
        return Fail(NotImplementedError(CycleNotImplemented));
      }
      if closest.tick.Some? && current.tick.Some? {
        return Fail(NotImplementedError(TickNotImplemented));
      }
      r := Pass;
    }

    /**
     * `next()` on a periodic manager's generator for `e` suspended at `g`:
     * the handler method for `e` (periodic.py:446-455).
     */
    method RunPeriodic(p: PeriodicROIManager, e: ExitEvent, g: Resume, ghost next: Stepper) returns (r: Result<(Resume, bool)>)
      requires IsStep(next) && p.base.coordinator == this
      requires e in P.Handled && ResumeOk(PeriodicSnap(p.config, p.State()), e, g)
      modifies p`phase, p`completedRois, p.base`nextEvent, m5`simInsts, m5`trace, SwitchTarget()`currentIsStart, SwitchTarget()`switchedTo, this`totalInstructions
      ensures Performs(next(old(SnapOf(Periodic(p))), e, g), old(EnvView()), r, SnapOf(Periodic(p)), EnvView())
    {
      assert next(SnapOf(Periodic(p)), e, g) == Step(SnapOf(Periodic(p)), e, g);
      if e == ExitEvent.MaxInsts {
        r := p.HandleMaxInsts(m5, g);
      } else if e == ExitEvent.WorkBegin {
        r := p.HandleWorkBegin(m5);
      } else {
        r := p.HandleWorkEnd(m5);
      }
    }

    /** The same for a checkpoint-taking manager (take.py:76-80). */
    method RunTake(t: TakeCheckpointsManager, e: ExitEvent, g: Resume, ghost next: Stepper) returns (r: Result<(Resume, bool)>)
      requires IsStep(next) && t.base.coordinator == this
      requires e in T.Handled && ResumeOk(TakeSnap(t.config, t.State()), e, g)
      modifies t`checkpointNum, t.base`nextEvent, m5`simInsts, m5`trace
      ensures Performs(next(old(SnapOf(Take(t))), e, g), old(EnvView()), r, SnapOf(Take(t)), EnvView())
    {
      assert next(SnapOf(Take(t)), e, g) == Step(SnapOf(Take(t)), e, g);
      if e == ExitEvent.MaxInsts {
        r := t.HandleMaxInsts(m5);
      } else if e == ExitEvent.WorkBegin {
        r := t.HandleWorkBegin(m5, g);
      } else {
        r := t.HandleWorkEnd(m5, g);
      }
    }

    /** The same for a checkpoint-restoring manager (restore.py:108-111). */
    method RunRestore(x: RestoreCheckpointManager, e: ExitEvent, g: Resume, ghost next: Stepper) returns (r: Result<(Resume, bool)>)
      requires IsStep(next) && x.base.coordinator == this
      requires e in R.Handled && ResumeOk(RestoreSnap(x.config, x.State()), e, g)
      modifies x.base`nextEvent, m5`simInsts, m5`trace
      ensures Performs(next(old(SnapOf(Restore(x))), e, g), old(EnvView()), r, SnapOf(Restore(x)), EnvView())
    {
      assert next(SnapOf(Restore(x)), e, g) == Step(SnapOf(Restore(x)), e, g);
      if e == ExitEvent.MaxInsts {
        r := x.HandleMaxInsts(m5, g);
      } else {
        r := x.HandleWorkEnd(m5, g);
      }
    }

    /** The same for a simple ROI manager (simple.py:29-32). */
    method RunSimple(sm: SimpleROIManager, e: ExitEvent, g: Resume, ghost next: Stepper) returns (r: Result<(Resume, bool)>)
      requires IsStep(next) && sm.base.coordinator == this
      requires e in S.Handled && ResumeOk(SimpleSnap(sm.base.nextEvent), e, g)
      modifies m5`simInsts, m5`trace, SwitchTarget()`currentIsStart, SwitchTarget()`switchedTo
      ensures Performs(next(old(SnapOf(Simple(sm))), e, g), old(EnvView()), r, SnapOf(Simple(sm)), EnvView())
    {
      assert next(SnapOf(Simple(sm)), e, g) == Step(SnapOf(Simple(sm)), e, g);
      if e == ExitEvent.WorkBegin {
        r := sm.HandleWorkBegin(m5);
      } else {
        r := sm.HandleWorkEnd(m5);
      }
    }

    /**
     * `next(self._handlers[k][e])`, manager k's generator suspended at `g`;
     * the other managers are left alone.
     */
    method RunHandler(k: nat, e: ExitEvent, g: Resume, ghost next: Stepper) returns (r: Result<(Resume, bool)>)
      requires IsStep(next) && k < |managers| && Distinct() && BaseOf(managers[k]).coordinator == this
      requires e in Handled(SnapOf(managers[k])) && ResumeOk(SnapOf(managers[k]), e, g)
      modifies PeriodicsOf(managers[k])`phase, PeriodicsOf(managers[k])`completedRois, TakesOf(managers[k])`checkpointNum
      modifies {BaseOf(managers[k])}`nextEvent
      modifies m5`simInsts, m5`trace, SwitchTarget()`currentIsStart, SwitchTarget()`switchedTo, this`totalInstructions
      ensures Performs(next(old(SnapOf(managers[k])), e, g), old(EnvView()), r, SnapOf(managers[k]), EnvView())
      ensures forall j :: 0 <= j < |managers| && j != k ==> SnapOf(managers[j]) == old(SnapOf(managers[j]))
      ensures forall j :: 0 <= j < |managers| ==> BaseOf(managers[j]).coordinator == old(BaseOf(managers[j]).coordinator)
    {
      match managers[k]
      case Periodic(p) => r := RunPeriodic(p, e, g, next);
      case Take(t) => r := RunTake(t, e, g, next);
      case Restore(x) => r := RunRestore(x, e, g, next);
      case Simple(sm) => r := RunSimple(sm, e, g, next);
    }

    /** `w` is what the coordinator and its managers hold now. */
    predicate Mirrors(w: World)
      reads this`simulator, this`totalInstructions, m5`simInsts, m5`trace, Simulators()`instantiated
      reads SwitchTarget()`currentIsStart, SwitchTarget()`switchedTo
      reads this`handlers, this`totalCycles, Bases()`nextEvent, Periodics()`phase, Periodics()`completedRois, Takes()`checkpointNum
    {
      && |w.snaps| == |managers|
      && (forall j :: 0 <= j < |managers| ==> w.snaps[j] == SnapOf(managers[j]))
      && w.handlers == handlers && w.env == EnvView() && w.totalCycles == totalCycles
    }

    /** The world mirrored is WorldOf(). */
    lemma MirrorsWorld(w: World)
      ensures Mirrors(w) <==> w == WorldOf()
    {
      if Mirrors(w) {
        assert w.snaps == Snaps();
      }
    }

    /**
     * The body of the dispatch loops (event_manager.py:228-248 and
     * 265-274) at manager k: `_handlers[k]` must exist, and the manager's
     * handler runs when it handles `e` and, for MAX_INSTS, its
     * instruction trigger has been reached.
     */
    method Visit(e: ExitEvent, curr: int, k: nat, res: bool, ghost next: Stepper, ghost w: World) returns (r: Result<bool>, ghost w': World)
      requires IsStep(next) && Distinct() && Mirrors(w) && Wellformed(w) && k < |managers|
      requires k < |handlers| ==> BaseOf(managers[k]).coordinator == this
      modifies this`handlers, this`totalInstructions, m5`simInsts, m5`trace, SwitchTarget()`currentIsStart, SwitchTarget()`switchedTo
      modifies Periodics()`phase, Periodics()`completedRois, Takes()`checkpointNum, Bases()`nextEvent
      ensures |handlers| == |old(handlers)|
      ensures forall j :: 0 <= j < |managers| ==> BaseOf(managers[j]).coordinator == old(BaseOf(managers[j]).coordinator)
      ensures r.Err? ==> DispatchFrom(next, w, e, curr, k, res) == Err(r.error)
      ensures r.Ok? ==>
        && Mirrors(w') && Wellformed(w')
        && DispatchFrom(next, w, e, curr, k, res) == DispatchFrom(next, w', e, curr, k + 1, r.value)
    {
      if k >= |handlers| {
        return Err(IndexError), w;
      }
      var due := BaseOf(managers[k]).nextEvent;
      if !(e in handlers[k] && (e == ExitEvent.MaxInsts ==> due.instruction.Some? && due.instruction.value <= curr)) {
        return Ok(res), w;
      }
      r, w' := VisitDue(e, curr, k, res, next, w);
    }

    /**
     * One `next()` on the due manager k's generator for `e`, stated as the
     * step of DispatchFrom it performs from the mirrored world `w`.
     */
    method StepManager(e: ExitEvent, curr: int, k: nat, res: bool, ghost next: Stepper, ghost w: World) returns (out: Result<(Resume, bool)>)
      requires IsStep(next) && Distinct() && Wellformed(w) && k < |managers| && k < |handlers| && k < |w.snaps|
      requires BaseOf(managers[k]).coordinator == this
      requires w.snaps[k] == SnapOf(managers[k]) && w.handlers == handlers && w.env == EnvView()
      requires Due(w, e, curr, k)
      modifies PeriodicsOf(managers[k])`phase, PeriodicsOf(managers[k])`completedRois, TakesOf(managers[k])`checkpointNum
      modifies {BaseOf(managers[k])}`nextEvent
      modifies m5`simInsts, m5`trace, SwitchTarget()`currentIsStart, SwitchTarget()`switchedTo, this`totalInstructions
      ensures out.Err? ==> DispatchFrom(next, w, e, curr, k, res) == Err(InGenerator(out.error))
      ensures out.Ok? ==>
        var w' := World(w.snaps[k := SnapOf(managers[k])], w.handlers[k := w.handlers[k][e := out.value.0]], EnvView(), w.totalCycles);
        && Wellformed(w')
        && DispatchFrom(next, w, e, curr, k, res) == DispatchFrom(next, w', e, curr, k + 1, Combine(e, res, out.value.1))
      ensures forall j :: 0 <= j < |managers| && j != k ==> SnapOf(managers[j]) == old(SnapOf(managers[j]))
      ensures forall j :: 0 <= j < |managers| ==> BaseOf(managers[j]).coordinator == old(BaseOf(managers[j]).coordinator)
    {
      out := RunHandler(k, e, handlers[k][e], next);
      PerformsDispatch(next, w, e, curr, k, res, out, SnapOf(managers[k]), EnvView());
    }

    /** Visit at a manager whose handler is due: one `next()` on its generator. */
    method VisitDue(e: ExitEvent, curr: int, k: nat, res: bool, ghost next: Stepper, ghost w: World) returns (r: Result<bool>, ghost w': World)
      requires IsStep(next) && Distinct() && Mirrors(w) && Wellformed(w) && k < |managers| && k < |handlers|
      requires BaseOf(managers[k]).coordinator == this
      requires Due(w, e, curr, k)
      modifies PeriodicsOf(managers[k])`phase, PeriodicsOf(managers[k])`completedRois, TakesOf(managers[k])`checkpointNum
      modifies {BaseOf(managers[k])}`nextEvent
      modifies m5`simInsts, m5`trace, SwitchTarget()`currentIsStart, SwitchTarget()`switchedTo, this`handlers, this`totalInstructions
      ensures |handlers| == |old(handlers)|
      ensures forall j :: 0 <= j < |managers| ==> BaseOf(managers[j]).coordinator == old(BaseOf(managers[j]).coordinator)
      ensures r.Err? ==> DispatchFrom(next, w, e, curr, k, res) == Err(r.error)
      ensures r.Ok? ==>
        && Mirrors(w') && Wellformed(w')
        && DispatchFrom(next, w, e, curr, k, res) == DispatchFrom(next, w', e, curr, k + 1, r.value)
    {
      var h := handlers[k];
      var out := StepManager(e, curr, k, res, next, w);
      if out.Err? {
        return Err(InGenerator(out.error)), w;
      }
      var (resume, yielded) := out.value;
      w' := World(w.snaps[k := SnapOf(managers[k])], w.handlers[k := w.handlers[k][e := resume]], EnvView(), w.totalCycles);
      assert forall j :: 0 <= j < |managers| ==> w'.snaps[j] == SnapOf(managers[j]);
      handlers := handlers[k := h[e := resume]];
      if e == ExitEvent.MaxInsts {
        r := Ok(res || yielded);
      } else {
        r := Ok(res || true);
      }
    }

    /**
     * The loop over `_managers` shared by `_handle_max_insts` and
     * `_handle_unscheduled` (event_manager.py:228-248, 265-274), starting
     * from `res = False`, with `curr` the current instruction count.
     */
    method DispatchAll(e: ExitEvent, curr: int, ghost next: Stepper, ghost w0: World) returns (r: Result<bool>, ghost w: World)
      requires IsStep(next) && Distinct() && (|handlers| == 0 || Linked()) && Mirrors(w0) && Wellformed(w0)
      modifies this`handlers, this`totalInstructions, m5`simInsts, m5`trace, SwitchTarget()`currentIsStart, SwitchTarget()`switchedTo
      modifies Periodics()`phase, Periodics()`completedRois, Takes()`checkpointNum, Bases()`nextEvent
      ensures var d := DispatchFrom(next, w0, e, curr, 0, false);
        && (d.Err? ==> r == Err(d.error))
        && (d.Ok? ==> r == Ok(d.value.1) && w == d.value.0 && Mirrors(w) && Wellformed(w))
      ensures |handlers| == |old(handlers)|
      ensures |handlers| == 0 || Linked()
    {
      w := w0;
      assert forall j :: 0 <= j < |managers| ==> allocated(BaseOf(managers[j]));
      var res := false;
      var k := 0;
      while k < |managers|
        invariant k <= |managers| && |handlers| == |old(handlers)|
        invariant |handlers| > 0 ==> forall j :: 0 <= j < |managers| ==> BaseOf(managers[j]).coordinator == this
        invariant Mirrors(w) && Wellformed(w)
        invariant DispatchFrom(next, w, e, curr, k, res) == DispatchFrom(next, w0, e, curr, 0, false)
      {
        var out;
        out, w := Visit(e, curr, k, res, next, w);
        if out.Err? {
          return Err(out.error), w;
        }
        res := out.value;
        k := k + 1;
      }
      r := Ok(res);
    }

    /**
     * After a dispatch that completed in the world `w` with result `res`:
     * the coordinator and its managers hold `w` and keep their invariant,
     * `_schedule` has added what it schedules for `w` to `scheduled`, and
     * the coordinator's generator yields `res` unless `_schedule` raised.
     */
    predicate Settled(w: World, res: bool, scheduled: seq<int>, r: Result<bool>)
      reads this`simulator, this`totalInstructions, m5`simInsts, m5`trace, Simulators()`instantiated
      reads SwitchTarget()`currentIsStart, SwitchTarget()`switchedTo, Simulators()`scheduledMaxInsts
      reads this`handlers, this`totalCycles, Bases()`nextEvent, Periodics()`phase, Periodics()`completedRois, Takes()`checkpointNum
      reads Bases()`coordinator
    {
      match r
      case Ok(v) => Rescheduled(w, scheduled) && ScheduleError(w).None? && v == res
      case Err(err) => Rescheduled(w, scheduled) && ScheduleError(w) == Some(err)
    }

    /** `w` is mirrored, the invariant holds, and `_schedule` has added its request for `w` to `scheduled`. */
    predicate Rescheduled(w: World, scheduled: seq<int>)
      reads this`simulator, this`totalInstructions, m5`simInsts, m5`trace, Simulators()`instantiated
      reads SwitchTarget()`currentIsStart, SwitchTarget()`switchedTo, Simulators()`scheduledMaxInsts
      reads this`handlers, this`totalCycles, Bases()`nextEvent, Periodics()`phase, Periodics()`completedRois, Takes()`checkpointNum
      reads Bases()`coordinator
    {
      && Mirrors(w) && Valid()
      && ScheduledSoFar() == scheduled + (if Scheduled(w).Some? then [Scheduled(w).value] else [])
    }

    /** `_schedule` after a completed dispatch to the mirrored world `w`. */
    method Reschedule(ghost w: World, res: bool, ghost scheduled: seq<int>) returns (r: Result<bool>)
      requires Mirrors(w) && Wellformed(w) && Distinct() && (|handlers| == 0 || (Linked() && |handlers| >= |managers|))
      requires ScheduledSoFar() == scheduled
      modifies Simulators()`scheduledMaxInsts
      ensures Settled(w, res, scheduled, r)
    {
      var o := Schedule(w);
      MirrorsValid(w);
      if o.Fail? {
        return Err(o.error);
      }
      r := Ok(res);
    }

    /** A mirrored well-formed world with linked distinct managers is the coordinator's invariant. */
    lemma MirrorsValid(w: World)
      requires Mirrors(w) && Wellformed(w) && Distinct() && (|handlers| == 0 || (Linked() && |handlers| >= |managers|))
      ensures Valid()
    {
      assert w.snaps == Snaps();
    }

    /** The invariant seen in the mirrored world. */
    lemma ValidMirrors(w: World)
      requires Mirrors(w) && Valid()
      ensures Wellformed(w) && Distinct() && (|handlers| == 0 || Linked())
    {
      assert w.snaps == Snaps();
    }

    /**
     * One `next()` on `_handle_max_insts` (event_manager.py:218-254) from
     * the mirrored world `w0`, with the managers' steps taken by `next`:
     * the MAX_INSTS dispatch at the current instruction count, then
     * `_schedule`. An exception from a manager's handler propagates.
     */
    method HandleMaxInsts(ghost w0: World, ghost next: Stepper) returns (r: Result<bool>)
      requires Mirrors(w0) && Valid() && IsStep(next)
      modifies this`handlers, this`totalInstructions, m5`simInsts, m5`trace, SwitchTarget()`currentIsStart, SwitchTarget()`switchedTo
      modifies Periodics()`phase, Periodics()`completedRois, Takes()`checkpointNum, Bases()`nextEvent, Simulators()`scheduledMaxInsts
      ensures var d := DispatchWith(next, w0, ExitEvent.MaxInsts);
        && (d.Err? ==> r == Err(d.error))
        && (d.Ok? ==> Settled(d.value.0, d.value.1, old(ScheduledSoFar()), r))
    {
      ValidMirrors(w0);
      var now := CurrentTime(World([], [], EnvView(), totalCycles));
      assert now == CurrentTime(w0);
      var res, w := DispatchAll(ExitEvent.MaxInsts, now.instruction.value, next, w0);
      if res.Err? {
        return Err(res.error);
      }
      r := Reschedule(w, res.value, old(ScheduledSoFar()));
    }

    /**
     * One `next()` on `_handle_unscheduled(e)` (event_manager.py:256-280)
     * from the mirrored world `w0`, with the managers' steps taken by
     * `next`: every manager handling `e` runs, whatever its next event,
     * then `_schedule`.
     */
    method HandleUnscheduled(e: ExitEvent, ghost w0: World, ghost next: Stepper) returns (r: Result<bool>)
      requires Mirrors(w0) && Valid() && IsStep(next) && e != ExitEvent.MaxInsts
      modifies this`handlers, this`totalInstructions, m5`simInsts, m5`trace, SwitchTarget()`currentIsStart, SwitchTarget()`switchedTo
      modifies Periodics()`phase, Periodics()`completedRois, Takes()`checkpointNum, Bases()`nextEvent, Simulators()`scheduledMaxInsts
      ensures var d := DispatchWith(next, w0, e);
        && (d.Err? ==> r == Err(d.error))
        && (d.Ok? ==> Settled(d.value.0, d.value.1, old(ScheduledSoFar()), r))
    {
      ValidMirrors(w0);
      DispatchFromAnyCurr(next, w0, e, 0, CurrentTime(w0).instruction.value, 0, false);
      var res, w := DispatchAll(e, 0, next, w0);
      if res.Err? {
        return Err(res.error);
      }
      r := Reschedule(w, res.value, old(ScheduledSoFar()));
    }

    /**
     * One `next()` on the generator `get_event_handlers()` gives for `e`
     * (event_manager.py:113-126), from the mirrored world `w0`, with the
     * managers' steps taken by any `next` that agrees with Step;
     * DispatchStepper makes DispatchWith(next, w0, e) Dispatch(w0, e).
     */
    method Handle(e: ExitEvent, ghost w0: World, ghost next: Stepper) returns (r: Result<bool>)
      requires Mirrors(w0) && Valid() && IsStep(next)
      modifies this`handlers, this`totalInstructions, m5`simInsts, m5`trace, SwitchTarget()`currentIsStart, SwitchTarget()`switchedTo
      modifies Periodics()`phase, Periodics()`completedRois, Takes()`checkpointNum, Bases()`nextEvent, Simulators()`scheduledMaxInsts
      ensures var d := DispatchWith(next, w0, e);
        && (d.Err? ==> r == Err(d.error))
        && (d.Ok? ==> Settled(d.value.0, d.value.1, old(ScheduledSoFar()), r))
    {
      if e == ExitEvent.MaxInsts {
        r := HandleMaxInsts(w0, next);
      } else {
        r := HandleUnscheduled(e, w0, next);
      }
    }

    /** The fields SnapOf reads are as in the pre-state. */
    twostate predicate Kept(m: Manager)
      reads {BaseOf(m)}`nextEvent, PeriodicsOf(m)`phase, PeriodicsOf(m)`completedRois, TakesOf(m)`checkpointNum
    {
      && BaseOf(m).nextEvent == old(BaseOf(m).nextEvent)
      && (m.Periodic? ==> m.p.phase == old(m.p.phase) && m.p.completedRois == old(m.p.completedRois))
      && (m.Take? ==> m.t.checkpointNum == old(m.t.checkpointNum))
    }

    /** A manager whose fields are kept has its snapshot kept. */
    twostate lemma SnapKept(m: Manager)
      requires Kept(m)
      ensures SnapOf(m) == old(SnapOf(m))
    {
    }

    /**
     * The loop of `register` (event_manager.py:135-138): every manager in
     * list order is registered here and gets fresh handler generators
     * appended.
     */
    method RegisterManagers(ghost snaps: seq<Snapshot>)
      requires |snaps| == |managers| && forall k :: 0 <= k < |managers| ==> Handled(snaps[k]) == HandledOf(managers[k])
      modifies this`handlers, Bases()`coordinator
      ensures handlers == old(handlers) + FreshAll(snaps)
      ensures Linked()
      ensures forall j :: 0 <= j < |managers| ==> Kept(managers[j])
      ensures EnvView() == old(EnvView())
    {
      ghost var h0 := handlers;
      var i := 0;
      while i < |managers|
        invariant i <= |managers|
        invariant |handlers| == |h0| + i && handlers[..|h0|] == h0
        invariant forall k :: 0 <= k < i ==> handlers[|h0| + k] == FreshGenerators(managers[k])
        invariant forall j :: 0 <= j < i ==> BaseOf(managers[j]).coordinator == this
        invariant forall j :: 0 <= j < |managers| ==> Kept(managers[j])
      {
        BaseOf(managers[i]).coordinator := this;  // `manager.register(self)`, as EventManagerBase.Register
        handlers := handlers + [FreshGenerators(managers[i])];
        i := i + 1;
      }
      assert handlers == h0 + FreshAll(snaps);
    }

    /** What `register` needs of the mirrored world before it starts. */
    lemma RegisterReady(w0: World)
      requires Mirrors(w0) && Valid()
      ensures |w0.snaps| == |managers| && forall k :: 0 <= k < |managers| ==> Handled(w0.snaps[k]) == HandledOf(managers[k])
      ensures HandlersMatch(w0.snaps, w0.handlers + FreshAll(w0.snaps)) && |w0.handlers + FreshAll(w0.snaps)| >= |managers|
      ensures Distinct()
    {
      ValidMirrors(w0);
      RegisterWellformed(w0.snaps, w0.handlers);
    }

    /**
     * The first part of `register` (event_manager.py:128-138) from the
     * mirrored world `w0`: the simulator is stored and the managers are
     * registered, which gives the world `Registered(w0, EnvView())`.
     */
    method Attach(sim: Simulator, ghost w0: World)
      requires Mirrors(w0) && Valid()
      modifies this`simulator, this`handlers, Bases()`coordinator
      ensures simulator == sim && Linked() && |handlers| >= |managers|
      ensures Mirrors(Registered(w0, EnvView())) && Wellformed(Registered(w0, EnvView()))
      ensures sim.scheduledMaxInsts == old(sim.scheduledMaxInsts)
    {
      RegisterReady(w0);
      simulator := sim;
      label Registering:
      RegisterManagers(w0.snaps);
      forall j | 0 <= j < |managers|
        ensures SnapOf(managers[j]) == w0.snaps[j]
      {
        SnapKept@Registering(managers[j]);
      }
    }

    /**
     * `register` (event_manager.py:128-141) from the mirrored world `w0`:
     * the simulator is stored, the managers are registered, then
     * `_schedule` runs in the world with the new handlers.
     */
    method Register(sim: Simulator, ghost w0: World) returns (o: Outcome)
      requires Mirrors(w0) && Valid()
      modifies this`simulator, this`handlers, Bases()`coordinator, {sim}`scheduledMaxInsts
      ensures simulator == sim && Linked() && Valid()
      ensures var w := Registered(w0, EnvView());
        && Mirrors(w)
        && sim.scheduledMaxInsts == old(sim.scheduledMaxInsts) + (if Scheduled(w).Some? then [Scheduled(w).value] else [])
        && o == (if ScheduleError(w).Some? then Fail(ScheduleError(w).value) else Pass)
    {
      Attach(sim, w0);
      ghost var w := Registered(w0, EnvView());
      o := Schedule(w);
      MirrorsValid(w);
    }
  }
}
