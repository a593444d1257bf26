/**
 * Event times (util/event_managers/event_manager.py, class EventTime): a time
 * in up to three units, each of which may be undefined, and the componentwise
 * earliest of several times that EventCoordinator._schedule picks.
 */
module EventTimes {
  import opened Results

  /** A point in simulated time; an undefined unit is `None`. */
  datatype EventTime = EventTime(instruction: Option<int>, cycle: Option<int>, tick: Option<int>)

  /** `EventTime()`, with no unit defined. */
  const Unset := EventTime(None, None, None)

  /** `EventTime(instruction=n)`. */
  function Instructions(n: int): (t: EventTime)
    ensures t.instruction == Some(n) && t.cycle.None? && t.tick.None?
  {
    EventTime(Some(n), None, None)
  }

  /** Sum of one unit: defined only when both operands define it. */
  function AddUnit(a: Option<int>, b: Option<int>): Option<int> {
    if a.Some? && b.Some? then Some(a.value + b.value) else None
  }

  /** `EventTime.add`. */
  function Add(a: EventTime, b: EventTime): (r: EventTime)
    ensures r.instruction.Some? <==> a.instruction.Some? && b.instruction.Some?
    ensures r.cycle.Some? <==> a.cycle.Some? && b.cycle.Some?
    ensures r.tick.Some? <==> a.tick.Some? && b.tick.Some?
    ensures r.instruction.Some? ==> r.instruction.value == a.instruction.value + b.instruction.value
    ensures r.cycle.Some? ==> r.cycle.value == a.cycle.value + b.cycle.value
    ensures r.tick.Some? ==> r.tick.value == a.tick.value + b.tick.value
  {
    EventTime(AddUnit(a.instruction, b.instruction), AddUnit(a.cycle, b.cycle), AddUnit(a.tick, b.tick))
  }

  lemma AddCommutative(a: EventTime, b: EventTime)
    ensures Add(a, b) == Add(b, a)
  {
  }

  lemma AddAssociative(a: EventTime, b: EventTime, c: EventTime)
    ensures Add(Add(a, b), c) == Add(a, Add(b, c))
  {
  }

  /** Adding the all-undefined time gives the all-undefined time. */
  lemma AddUnsetIsUnset(a: EventTime)
    ensures Add(a, Unset) == Unset && Add(Unset, a) == Unset
  {
  }

  /**
   * One update of `_schedule`'s scan for one unit: the candidate `x`
   * replaces `acc` when it is defined and `acc` is undefined or later.
   */
  function Earlier(acc: Option<int>, x: Option<int>): Option<int> {
    if x.Some? && (acc.None? || acc.value > x.value) then x else acc
  }

  /** One iteration of `_schedule`'s loop over the managers' next events. */
  function Merge(closest: EventTime, next: EventTime): EventTime {
    EventTime(Earlier(closest.instruction, next.instruction),
              Earlier(closest.cycle, next.cycle),
              Earlier(closest.tick, next.tick))
  }

  /** Earliest instruction of the given events, if any defines one. */
  predicate IsEarliestInstruction(r: Option<int>, events: seq<EventTime>) {
    && (r.None? <==> forall k :: 0 <= k < |events| ==> events[k].instruction.None?)
    && (r.Some? ==> exists k :: 0 <= k < |events| && events[k].instruction == r)
    && (r.Some? ==> forall k :: 0 <= k < |events| && events[k].instruction.Some? ==>
                      r.value <= events[k].instruction.value)
  }

  predicate IsEarliestCycle(r: Option<int>, events: seq<EventTime>) {
    && (r.None? <==> forall k :: 0 <= k < |events| ==> events[k].cycle.None?)
    && (r.Some? ==> exists k :: 0 <= k < |events| && events[k].cycle == r)
    && (r.Some? ==> forall k :: 0 <= k < |events| && events[k].cycle.Some? ==>
                      r.value <= events[k].cycle.value)
  }

  predicate IsEarliestTick(r: Option<int>, events: seq<EventTime>) {
    && (r.None? <==> forall k :: 0 <= k < |events| ==> events[k].tick.None?)
    && (r.Some? ==> exists k :: 0 <= k < |events| && events[k].tick == r)
    && (r.Some? ==> forall k :: 0 <= k < |events| && events[k].tick.Some? ==>
                      r.value <= events[k].tick.value)
  }

  /**
   * The closest event `_schedule` computes from the managers' next events,
   * scanned in list order from the all-undefined time: in each unit, the
   * smallest value among the events that define that unit, undefined when
   * none does.
   */
  function Closest(events: seq<EventTime>): EventTime {
    if |events| == 0 then Unset
    else Merge(Closest(events[..|events| - 1]), events[|events| - 1])
  }

  /** The scan finds, unit by unit, the earliest value the events define. */
  lemma {:induction false} ClosestIsEarliest(events: seq<EventTime>)
    ensures IsEarliestInstruction(Closest(events).instruction, events)
    ensures IsEarliestCycle(Closest(events).cycle, events)
    ensures IsEarliestTick(Closest(events).tick, events)
    decreases |events|
  {
    if |events| > 0 {
      var prefix := events[..|events| - 1];
      var last := events[|events| - 1];
      ClosestIsEarliest(prefix);
      var acc := Closest(prefix);
      assert prefix + [last] == events;
      MergeInstruction(acc.instruction, prefix, last);
      MergeCycle(acc.cycle, prefix, last);
      MergeTick(acc.tick, prefix, last);
    }
  }

  /** Scanning one more event merges it into the closest event so far. */
  lemma ClosestPrefix(events: seq<EventTime>, k: nat)
    requires k < |events|
    ensures Closest(events[..k + 1]) == Merge(Closest(events[..k]), events[k])
  {
    assert events[..k + 1][..k] == events[..k];
  }

  /** One scan step keeps the earliest instruction of the events seen so far. */
  lemma MergeInstruction(acc: Option<int>, prefix: seq<EventTime>, last: EventTime)
    requires IsEarliestInstruction(acc, prefix)
    ensures IsEarliestInstruction(Earlier(acc, last.instruction), prefix + [last])
  {
    var events := prefix + [last];
    assert forall k :: 0 <= k < |prefix| ==> events[k] == prefix[k];
    assert events[|prefix|] == last;
  }

  lemma MergeCycle(acc: Option<int>, prefix: seq<EventTime>, last: EventTime)
    requires IsEarliestCycle(acc, prefix)
    ensures IsEarliestCycle(Earlier(acc, last.cycle), prefix + [last])
  {
    var events := prefix + [last];
    assert forall k :: 0 <= k < |prefix| ==> events[k] == prefix[k];
    assert events[|prefix|] == last;
  }

  lemma MergeTick(acc: Option<int>, prefix: seq<EventTime>, last: EventTime)
    requires IsEarliestTick(acc, prefix)
    ensures IsEarliestTick(Earlier(acc, last.tick), prefix + [last])
  {
    var events := prefix + [last];
    assert forall k :: 0 <= k < |prefix| ==> events[k] == prefix[k];
    assert events[|prefix|] == last;
  }
}
