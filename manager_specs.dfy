/**
 * The four event managers behind one interface: a snapshot of a manager's
 * configuration and state, the exit events it handles, the resume points
 * its generators can be at, and one handler step.
 */
module ManagerSpecs {
  import opened Results
  import opened EventTimes
  import opened Handlers
  import P = PeriodicROI
  import T = TakeCheckpoints
  import R = RestoreCheckpoint
  import S = SimpleROI

  datatype Snapshot =
    | PeriodicSnap(pc: P.Config, ps: P.State)
    | TakeSnap(tc: T.Config, ts: T.State)
    | RestoreSnap(rc: R.Config, rs: R.State)
    | SimpleSnap(next: EventTime)

  /** `get_next_event()`. */
  function NextEvent(s: Snapshot): EventTime {
    match s
    case PeriodicSnap(_, ps) => ps.nextEvent
    case TakeSnap(_, ts) => ts.nextEvent
    case RestoreSnap(_, rs) => rs.nextEvent
    case SimpleSnap(next) => next
  }

  /** The keys of `get_event_handlers()`. */
  function Handled(s: Snapshot): set<ExitEvent> {
    match s
    case PeriodicSnap(_, _) => P.Handled
    case TakeSnap(_, _) => T.Handled
    case RestoreSnap(_, _) => R.Handled
    case SimpleSnap(_) => S.Handled
  }

  /** Same manager class with the same final configuration. */
  predicate SameKind(a: Snapshot, b: Snapshot) {
    match a
    case PeriodicSnap(c, _) => b.PeriodicSnap? && b.pc == c
    case TakeSnap(c, _) => b.TakeSnap? && b.tc == c
    case RestoreSnap(c, _) => b.RestoreSnap? && b.rc == c
    case SimpleSnap(_) => b.SimpleSnap?
  }

  /**
   * Where the generator for event `e` can be suspended: the looping
   * handlers always resume at their loop head, the periodic MAX_INSTS
   * handler also after its stop, and the handlers without a loop
   * (take.py:105-140, restore.py:113-156) after their last yield too.
   */
  predicate ResumeOk(s: Snapshot, e: ExitEvent, g: Resume) {
    match s
    case PeriodicSnap(_, _) => if e == ExitEvent.MaxInsts then P.MaxInstsResume(g) else g == AtStart
    case TakeSnap(_, _) => if e == ExitEvent.MaxInsts then g == AtStart else g == AtStart || g == Finished
    case RestoreSnap(_, _) => if e == ExitEvent.MaxInsts then R.MaxInstsResume(g) else g == AtStart || g == Finished
    case SimpleSnap(_) => g == AtStart
  }

  /** One `next()` on the manager's generator for `e`. */
  function Step(s: Snapshot, e: ExitEvent, g: Resume): (r: Result<Reaction<Snapshot>>)
    requires e in Handled(s) && ResumeOk(s, e, g)
    ensures r.Ok? ==> SameKind(s, r.value.state) && ResumeOk(r.value.state, e, r.value.resume)
  {
    match s
    case PeriodicSnap(c, st) =>
      if e == ExitEvent.MaxInsts then Ok(PeriodicReaction(c, P.MaxInsts(c, st, g)))
      else if e == ExitEvent.WorkBegin then
        (match P.WorkBegin(c, st)
         case Err(err) => Err(err)
         case Ok(r) => Ok(PeriodicReaction(c, r)))
      else Ok(PeriodicReaction(c, P.WorkEnd(c, st)))
    case TakeSnap(c, st) =>
      if e == ExitEvent.MaxInsts then Ok(TakeReaction(c, T.MaxInsts(c, st)))
      else if e == ExitEvent.WorkBegin then TakeResult(c, T.WorkBegin(c, st, g))
      else TakeResult(c, T.WorkEnd(st, g))
    case RestoreSnap(c, st) =>
      if e == ExitEvent.MaxInsts then RestoreResult(c, R.MaxInsts(c, st, g))
      else RestoreResult(c, R.WorkEnd(st, g))
    case SimpleSnap(next) =>
      if e == ExitEvent.WorkBegin then Ok(SimpleReaction(next, S.WorkBegin()))
      else Ok(SimpleReaction(next, S.WorkEnd()))
  }

  // One manager's reaction seen as a reaction of the snapshot.

  function PeriodicReaction(c: P.Config, r: Reaction<P.State>): Reaction<Snapshot> {
    Reaction(PeriodicSnap(c, r.state), r.resume, r.effects, r.yielded)
  }

  function TakeReaction(c: T.Config, r: Reaction<T.State>): Reaction<Snapshot> {
    Reaction(TakeSnap(c, r.state), r.resume, r.effects, r.yielded)
  }

  function TakeResult(c: T.Config, r: Result<Reaction<T.State>>): Result<Reaction<Snapshot>> {
    match r
    case Err(err) => Err(err)
    case Ok(x) => Ok(TakeReaction(c, x))
  }

  function RestoreResult(c: R.Config, r: Result<Reaction<R.State>>): Result<Reaction<Snapshot>> {
    match r
    case Err(err) => Err(err)
    case Ok(x) => Ok(Reaction(RestoreSnap(c, x.state), x.resume, x.effects, x.yielded))
  }

  function SimpleReaction(next: EventTime, r: Reaction<()>): Reaction<Snapshot> {
    Reaction(SimpleSnap(next), r.resume, r.effects, r.yielded)
  }

  /** A fresh generator for each of `events`, at its start. */
  function FreshMap(events: set<ExitEvent>): map<ExitEvent, Resume> {
    map e | e in events :: AtStart
  }

  /** Fresh generators: every handled event resumes at the start. */
  function FreshHandlers(s: Snapshot): (h: map<ExitEvent, Resume>)
    ensures h.Keys == Handled(s)
    ensures forall e :: e in h ==> h[e] == AtStart && ResumeOk(s, e, AtStart)
  {
    FreshMap(Handled(s))
  }

  /** Resume points valid for one snapshot stay valid for any of the same kind. */
  lemma SameKindResumes(a: Snapshot, b: Snapshot, e: ExitEvent, g: Resume)
    requires SameKind(a, b)
    ensures Handled(a) == Handled(b)
    ensures ResumeOk(a, e, g) == ResumeOk(b, e, g)
  {
  }
}
