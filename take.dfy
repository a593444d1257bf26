/**
 * util/event_managers/checkpoint/take.py: a checkpoint at the start of the
 * ROI and then every `interval` instructions, counted, until an optional
 * maximum is reached or the ROI ends.
 */
module TakeCheckpoints {
  import opened Results
  import opened EventTimes
  import opened Handlers

  /** `_interval` (already in instructions) and `_max_checkpoints`. */
  datatype Config = Config(interval: int, maxCheckpoints: Option<int>)

  /** `_checkpoint_num` and `_next_event`. */
  datatype State = State(checkpointNum: int, nextEvent: EventTime)

  /** No checkpoint yet and no event pending (take.py:49-52). */
  function Initial(): (s: State)
    ensures s.checkpointNum == 0 && s.nextEvent == Unset
  {
    State(0, Unset)
  }

  /**
   * The interval handling of `__init__` as written (take.py:55-66): the
   * positivity guard reads `self._interval` before it is assigned, so every
   * truthy interval raises AttributeError and only an unset or zero one
   * gets through, as no interval at all.
   */
  function MakeConfigAsWritten(interval: Option<int>, maxCheckpoints: Option<int>): (r: Result<Config>)
    ensures r.Ok? <==> !Truthy(interval)
    ensures r.Ok? ==> r.value.interval == 0 && r.value.maxCheckpoints == maxCheckpoints
    ensures r.Err? ==> r.error == AttributeError(NoIntervalAttribute)
  {
    if Truthy(interval) then Err(AttributeError(NoIntervalAttribute))
    else Ok(Config(0, maxCheckpoints))
  }

  /**
   * The interval handling the guard is meant to perform: a set interval
   * below one aborts with exit status 1, a positive one counts millions of
   * instructions, an unset or zero one becomes 0.
   */
  function MakeConfig(interval: Option<int>, maxCheckpoints: Option<int>): (r: Result<Config>)
    ensures r.Err? <==> Truthy(interval) && interval.value < 1
    ensures r.Err? ==> r.error == SystemExit(1)
    ensures r.Ok? ==> r.value.maxCheckpoints == maxCheckpoints
    ensures r.Ok? ==> r.value.interval >= 0 && r.value.interval % 1000000 == 0
    ensures r.Ok? ==> r.value.interval / 1000000 == (if Truthy(interval) then interval.value else 0)
  {
    if Truthy(interval) then
      if interval.value < 1 then Err(SystemExit(1)) else Ok(Config(interval.value * 1000000, maxCheckpoints))
    else Ok(Config(0, maxCheckpoints))
  }

  /**
   * The two agree exactly when no interval is given: `--interval 10`, the
   * documented use, raises as written and means ten million instructions
   * as intended.
   */
  lemma AsWrittenRejectsEveryInterval(interval: Option<int>, maxCheckpoints: Option<int>)
    ensures MakeConfigAsWritten(interval, maxCheckpoints) == MakeConfig(interval, maxCheckpoints)
            <==> !Truthy(interval)
    ensures MakeConfigAsWritten(Some(10), None).Err?
    ensures MakeConfig(Some(10), None) == Ok(Config(10000000, None))
  {
  }

  /** `not self._max_checkpoints or self._checkpoint_num < self._max_checkpoints`. */
  predicate MoreToTake(c: Config, num: int) {
    !Truthy(c.maxCheckpoints) || num < c.maxCheckpoints.value
  }

  /**
   * Count and take a checkpoint after `before`, then either schedule the
   * next one and continue or stop, leaving the next event alone.
   */
  function Checkpointed(c: Config, s: State, before: seq<Effect>, resume: Resume): Reaction<State> {
    var num := s.checkpointNum + 1;
    if MoreToTake(c, num) then Reaction(State(num, Instructions(c.interval)), resume, before + [TakeCheckpoint], false)
    else Reaction(State(num, s.nextEvent), resume, before + [TakeCheckpoint], true)
  }

  /** One `next()` of the looping `_handle_maxinsts` (take.py:82-103). */
  function MaxInsts(c: Config, s: State): Reaction<State> {
    Checkpointed(c, s, [], AtStart)
  }

  /**
   * `_handle_workbegin` (take.py:105-128): reset statistics and take the
   * start-of-ROI checkpoint. It has no loop, so a second call raises.
   */
  function WorkBegin(c: Config, s: State, g: Resume): Result<Reaction<State>> {
    if g == Finished then Err(StopIteration)
    else Ok(Checkpointed(c, s, [StatsReset], Finished))
  }

  /** `_handle_workend` (take.py:130-140): dump, reset and stop; once only. */
  function WorkEnd(s: State, g: Resume): Result<Reaction<State>> {
    if g == Finished then Err(StopIteration)
    else Ok(Reaction(s, Finished, [StatsDump, StatsReset], true))
  }

  /** The exit events this manager handles (take.py:76-80). */
  const Handled: set<ExitEvent> := {ExitEvent.MaxInsts, ExitEvent.WorkBegin, ExitEvent.WorkEnd}

  /**
   * Every MAX_INSTS or WORKBEGIN handling takes exactly one checkpoint and
   * counts it; it yields False and schedules the next checkpoint
   * `interval` instructions on exactly when more checkpoints are wanted,
   * and otherwise yields True with the next event untouched.
   */
  lemma CheckpointStopRule(c: Config, s: State, g: Resume)
    requires g != Finished
    ensures var r := MaxInsts(c, s);
      && r.state.checkpointNum == s.checkpointNum + 1 && r.effects == [TakeCheckpoint]
      && (!r.yielded <==> MoreToTake(c, s.checkpointNum + 1))
      && (!r.yielded ==> r.state.nextEvent == Instructions(c.interval))
      && (r.yielded ==> r.state.nextEvent == s.nextEvent)
    ensures WorkBegin(c, s, g).Ok?
    ensures var r := WorkBegin(c, s, g).value;
      && r.state.checkpointNum == s.checkpointNum + 1 && r.effects == [StatsReset, TakeCheckpoint]
      && (!r.yielded <==> MoreToTake(c, s.checkpointNum + 1))
      && (!r.yielded ==> r.state.nextEvent == Instructions(c.interval))
      && (r.yielded ==> r.state.nextEvent == s.nextEvent)
  {
  }

  /** WORKEND always stops; WORKBEGIN and WORKEND each run once per generator. */
  lemma OneShotHandlers(c: Config, s: State)
    ensures WorkEnd(s, AtStart).Ok? && WorkEnd(s, AtStart).value.yielded && WorkEnd(s, AtStart).value.resume == Finished
    ensures WorkBegin(c, s, AtStart).Ok? && WorkBegin(c, s, AtStart).value.resume == Finished
    ensures WorkEnd(s, Finished) == Err(StopIteration) && WorkBegin(c, s, Finished) == Err(StopIteration)
  {
  }

  /** What n consecutive MAX_INSTS calls yield, and the state they leave. */
  function MaxInstsRun(c: Config, s: State, n: nat): (r: (State, seq<bool>))
    ensures |r.1| == n
    decreases n
  {
    if n == 0 then (s, [])
    else
      var step := MaxInsts(c, s);
      var rest := MaxInstsRun(c, step.state, n - 1);
      (rest.0, [step.yielded] + rest.1)
  }

  /**
   * The i-th of n MAX_INSTS calls signals a stop exactly when the
   * checkpoint it takes, number `checkpointNum + i + 1`, reaches the
   * maximum; after n calls n more checkpoints are counted.
   */
  lemma {:induction false} MaxInstsRunStops(c: Config, s: State, n: nat)
    ensures var r := MaxInstsRun(c, s, n);
      && r.0.checkpointNum == s.checkpointNum + n
      && forall i :: 0 <= i < n ==> (r.1[i] <==> !MoreToTake(c, s.checkpointNum + i + 1))
    decreases n
  {
    if n > 0 {
      var step := MaxInsts(c, s);
      MaxInstsRunStops(c, step.state, n - 1);
      var r := MaxInstsRun(c, s, n);
      var rest := MaxInstsRun(c, step.state, n - 1);
      forall i | 0 <= i < n
        ensures r.1[i] <==> !MoreToTake(c, s.checkpointNum + i + 1)
      {
        if i > 0 {
          assert r.1[i] == rest.1[i - 1];
          assert step.state.checkpointNum + (i - 1) + 1 == s.checkpointNum + i + 1;
        }
      }
    }
  }

  /**
   * With `max_checkpoints` = k > 0, the start-of-ROI checkpoint counts as the
   * first: it stops the run exactly when k = 1, and otherwise the i-th
   * following MAX_INSTS checkpoint (the (i + 2)-th overall) stops it exactly
   * when i + 2 >= k, that is at the k-th checkpoint.
   */
  lemma StopsAtKthCheckpoint(c: Config, k: int, n: nat)
    requires c.maxCheckpoints == Some(k) && k > 0
    ensures var begin := WorkBegin(c, Initial(), AtStart).value;
      && (begin.yielded <==> k == 1)
      && var r := MaxInstsRun(c, begin.state, n);
         forall i :: 0 <= i < n ==> (r.1[i] <==> i + 2 >= k)
  {
    var begin := WorkBegin(c, Initial(), AtStart).value;
    assert begin.state.checkpointNum == 1;
    MaxInstsRunStops(c, begin.state, n);
  }

  /**
   * With the intended configuration of `--interval n`, n >= 1, each MAX_INSTS
   * checkpoint that is not the last schedules the next one n million
   * instructions on.
   */
  lemma ConfiguredInterval(n: int, maxCheckpoints: Option<int>, s: State)
    requires n >= 1
    ensures MakeConfig(Some(n), maxCheckpoints).Ok?
    ensures var c := MakeConfig(Some(n), maxCheckpoints).value;
      var r := MaxInsts(c, s);
      !r.yielded ==> r.state.nextEvent == Instructions(n * 1000000)
  {
  }
}
