/**
 * The parts of gem5 the event managers drive, as small stand-ins: the m5
 * module's statistics and checkpoint calls, and the Simulator with its
 * board's processor, its instantiation flag and the instruction stops
 * scheduled on it. gem5's own behaviour behind these calls is not modelled.
 */
module Gem5 {
  import opened Handlers
  import opened Processors

  /** The m5 module: the `simInsts` statistic and the calls made on it, in order. */
  class M5 {
    var simInsts: nat
    var trace: seq<M5Call>

    constructor ()
      ensures simInsts == 0 && trace == []
    {
      simInsts := 0;
      trace := [];
    }

    /** `m5.stats.dump()`: records a statistics block; the counters keep running. */
    method StatsDump()
      modifies this`trace
      ensures trace == old(trace) + [Dumped] && simInsts == old(simInsts)
    {
      trace := trace + [Dumped];
    }

    /** `m5.stats.reset()`: the counters start again from zero. */
    method StatsReset()
      modifies this`trace, this`simInsts
      ensures trace == old(trace) + [Reset] && simInsts == 0
    {
      trace := trace + [Reset];
      simInsts := 0;
    }

    /** `m5.checkpoint(dir)`; the directory is not modelled. */
    method Checkpoint()
      modifies this`trace
      ensures trace == old(trace) + [CheckpointSaved] && simInsts == old(simInsts)
    {
      trace := trace + [CheckpointSaved];
    }

    /** The simulation runs `n` more instructions. */
    method Execute(n: nat)
      modifies this`simInsts
      ensures simInsts == old(simInsts) + n && trace == old(trace)
    {
      simInsts := simInsts + n;
    }
  }

  /** The processor on the simulator's board: switchable, or a plain one without `switch()`. */
  datatype BoardProcessor =
    | Switchable(sp: CustomX86SwitchableProcessor)
    | Fixed(fp: CustomX86Processor)

  /** The processor as the switching effect sees it. */
  function View(p: BoardProcessor): ProcessorView
    reads if p.Switchable? then {p.sp} else {}`currentIsStart, if p.Switchable? then {p.sp} else {}`switchedTo
  {
    match p
    case Switchable(sp) => SwitchableCores(sp.currentIsStart, |sp.switchedTo|)
    case Fixed(_) => FixedCores
  }

  /** gem5's Simulator, as far as the coordinator uses it. */
  class Simulator {
    const processor: BoardProcessor
    /** `_instantiated`: set once gem5 has built the simulated system. */
    var instantiated: bool
    /** The arguments of `schedule_max_insts`, in order. */
    var scheduledMaxInsts: seq<int>

    constructor (p: BoardProcessor)
      ensures processor == p && !instantiated && scheduledMaxInsts == []
    {
      processor := p;
      instantiated := false;
      scheduledMaxInsts := [];
    }

    /** gem5 instantiates the system when the simulation starts. */
    method Instantiate()
      modifies this`instantiated
      ensures instantiated && scheduledMaxInsts == old(scheduledMaxInsts)
    {
      instantiated := true;
    }

    /** `schedule_max_insts(n)`: a MAX_INSTS exit is requested at instruction n. */
    method ScheduleMaxInsts(n: int)
      modifies this`scheduledMaxInsts
      ensures scheduledMaxInsts == old(scheduledMaxInsts) + [n] && instantiated == old(instantiated)
    {
      scheduledMaxInsts := scheduledMaxInsts + [n];
    }
  }
}
