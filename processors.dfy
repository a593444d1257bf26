/**
 * The X86 processors of components/processors/: a plain processor with a
 * fixed list of cores and a switchable one with a starting and a switch-to
 * set of cores. Both check their core count and forward an instruction
 * stop to their (active) cores.
 */
module Processors {
  import opened Results

  /** gem5's CPUTypes as far as the cores carry them. */
  datatype CpuType = Atomic | Kvm | O3 | Timing | Minor

  /** A CustomX86Core: its id and CPU type. */
  datatype Core = Core(id: nat, cpuType: CpuType)

  /** One `core._set_inst_stop_any_thread(insts, already_running)` call. */
  datatype StopRequest = StopRequest(core: Core, insts: int, alreadyRunning: bool)

  /**
   * The core-count check of both constructors
   * (custom_x86_processor.py:27-28, custom_x86_switchable_processor.py:47-48):
   * a missing, zero or negative count raises AssertionError.
   */
  function CheckCoreCount(cores: Option<int>): (r: Result<nat>)
    ensures r.Ok? <==> cores.Some? && cores.value > 0
    ensures r.Ok? ==> r.value == cores.value
    ensures r.Err? ==> r.error == AssertionError(CoreCountNotPositive)
  {
    if !Truthy(cores) || cores.value <= 0 then Err(AssertionError(CoreCountNotPositive))
    else Ok(cores.value)
  }

  /** `[CustomX86Core(core_id=i, ...) for i in range(num_cores)]`. */
  function BuildCores(n: nat, t: CpuType): (r: seq<Core>)
    ensures |r| == n
    ensures forall i :: 0 <= i < n ==> r[i].id == i && r[i].cpuType == t
  {
    seq(n, i requires 0 <= i < n => Core(i, t))
  }

  /**
   * The `schedule_max_insts` loop of both processors: every core in order
   * gets the same stop, except that with `core0_only` the loop breaks after
   * the first core.
   */
  method StopCores(cores: seq<Core>, insts: int, core0Only: bool, alreadyRunning: bool)
    returns (touched: seq<StopRequest>)
    ensures |touched| == (if core0Only && |cores| > 0 then 1 else |cores|)
    ensures forall i :: 0 <= i < |touched| ==> touched[i] == StopRequest(cores[i], insts, alreadyRunning)
  {
    touched := [];
    var k := 0;
    while k < |cores|
      invariant 0 <= k <= |cores|
      invariant |touched| == k
      invariant core0Only ==> k == 0
      invariant forall i :: 0 <= i < k ==> touched[i] == StopRequest(cores[i], insts, alreadyRunning)
    {
      touched := touched + [StopRequest(cores[k], insts, alreadyRunning)];
      k := k + 1;
      if core0Only {
        break;
      }
    }
  }

  /** CustomX86Processor (custom_x86_processor.py). */
  class CustomX86Processor {
    const cores: seq<Core>
    /** The stops requested of the cores so far, in order. */
    var stopRequests: seq<StopRequest>

    /** The construction check guarantees at least one core. */
    predicate Valid() {
      |cores| > 0
    }

    constructor (numCores: nat, cpuType: CpuType)
      requires numCores > 0
      ensures Valid() && cores == BuildCores(numCores, cpuType) && stopRequests == []
    {
      cores := BuildCores(numCores, cpuType);
      stopRequests := [];
    }

    /** The constructor with its core-count check (custom_x86_processor.py:20-39). */
    static method Create(numCores: Option<int>, cpuType: CpuType) returns (r: Result<CustomX86Processor>)
      ensures r.Ok? <==> CheckCoreCount(numCores).Ok?
      ensures r.Err? ==> r.error == CheckCoreCount(numCores).error
      ensures r.Ok? ==> fresh(r.value) && r.value.Valid() && r.value.stopRequests == []
      ensures r.Ok? ==> r.value.cores == BuildCores(numCores.value, cpuType)
    {
      var n := CheckCoreCount(numCores);
      if n.Err? {
        return Err(n.error);
      }
      var p := new CustomX86Processor(n.value, cpuType);
      return Ok(p);
    }

    /**
     * `schedule_max_insts` (custom_x86_processor.py:49-57): the stops of
     * StopCores over all cores are requested after the earlier ones.
     */
    method ScheduleMaxInsts(insts: int, core0Only: bool, alreadyRunning: bool)
      requires Valid()
      modifies this`stopRequests
      ensures |stopRequests| == |old(stopRequests)| + (if core0Only then 1 else |cores|)
      ensures stopRequests[..|old(stopRequests)|] == old(stopRequests)
      ensures forall i :: |old(stopRequests)| <= i < |stopRequests| ==>
                stopRequests[i] == StopRequest(cores[i - |old(stopRequests)|], insts, alreadyRunning)
    {
      var touched := StopCores(cores, insts, core0Only, alreadyRunning);
      stopRequests := stopRequests + touched;
    }
  }

  /** CustomX86SwitchableProcessor (custom_x86_switchable_processor.py). */
  class CustomX86SwitchableProcessor {
    const startKey: string := "start"
    const switchKey: string := "switch"
    /** `switchable_cores[start_key]` and `switchable_cores[switch_key]`. */
    const startCores: seq<Core>
    const switchCores: seq<Core>
    /** `_current_is_start`. */
    var currentIsStart: bool
    /** The keys passed to gem5's `switch_to_processor`, in order. */
    var switchedTo: seq<string>
    /** The stops requested of the cores so far, in order. */
    var stopRequests: seq<StopRequest>

    /** Both core sets are the same non-empty size. */
    predicate Valid() {
      |startCores| > 0 && |switchCores| == |startCores|
    }

    /** The active cores, as gem5's `get_cores()` gives them. */
    function GetCores(): seq<Core>
      reads this
    {
      if currentIsStart then startCores else switchCores
    }

    /**
     * custom_x86_switchable_processor.py:50-77: two sets of `num_cores`
     * cores with ids 0..n-1, starting on the "start" set.
     */
    constructor (numCores: nat, startType: CpuType, switchType: CpuType)
      requires numCores > 0
      ensures Valid() && currentIsStart && switchedTo == [] && stopRequests == []
      ensures startCores == BuildCores(numCores, startType) && switchCores == BuildCores(numCores, switchType)
      ensures GetCores() == startCores
    {
      startCores := BuildCores(numCores, startType);
      switchCores := BuildCores(numCores, switchType);
      currentIsStart := true;
      switchedTo := [];
      stopRequests := [];
    }

    /** The constructor with its core-count check (custom_x86_switchable_processor.py:42-48). */
    static method Create(numCores: Option<int>, startType: CpuType, switchType: CpuType)
      returns (r: Result<CustomX86SwitchableProcessor>)
      ensures r.Ok? <==> CheckCoreCount(numCores).Ok?
      ensures r.Err? ==> r.error == CheckCoreCount(numCores).error
      ensures r.Ok? ==> fresh(r.value) && r.value.Valid() && r.value.currentIsStart
      ensures r.Ok? ==> r.value.switchedTo == [] && r.value.stopRequests == []
      ensures r.Ok? ==> r.value.startCores == BuildCores(numCores.value, startType)
      ensures r.Ok? ==> r.value.switchCores == BuildCores(numCores.value, switchType)
    {
      var n := CheckCoreCount(numCores);
      if n.Err? {
        return Err(n.error);
      }
      var p := new CustomX86SwitchableProcessor(n.value, startType, switchType);
      return Ok(p);
    }

    /**
     * `switch` (custom_x86_switchable_processor.py:87-94): move to the other
     * core set by its key and flip the flag.
     */
    method Switch()
      modifies this`currentIsStart, this`switchedTo
      ensures currentIsStart == !old(currentIsStart)
      ensures switchedTo == old(switchedTo) + [if old(currentIsStart) then switchKey else startKey]
      ensures GetCores() == (if old(currentIsStart) then switchCores else startCores)
      ensures stopRequests == old(stopRequests)
    {
      if currentIsStart {
        switchedTo := switchedTo + [switchKey];
      } else {
        switchedTo := switchedTo + [startKey];
      }
      currentIsStart := !currentIsStart;
    }

    /**
     * `schedule_max_insts` (custom_x86_switchable_processor.py:102-110): the
     * stops of StopCores over the active cores.
     */
    method ScheduleMaxInsts(insts: int, core0Only: bool, alreadyRunning: bool)
      requires Valid()
      modifies this`stopRequests
      ensures |stopRequests| == |old(stopRequests)| + (if core0Only then 1 else |GetCores()|)
      ensures stopRequests[..|old(stopRequests)|] == old(stopRequests)
      ensures forall i :: |old(stopRequests)| <= i < |stopRequests| ==>
                stopRequests[i] == StopRequest(GetCores()[i - |old(stopRequests)|], insts, alreadyRunning)
      ensures currentIsStart == old(currentIsStart) && switchedTo == old(switchedTo)
    {
      var touched := StopCores(GetCores(), insts, core0Only, alreadyRunning);
      stopRequests := stopRequests + touched;
    }
  }
}
