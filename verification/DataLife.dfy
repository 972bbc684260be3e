// The life of an allocation from the history of a run: how far it has come, whether its
// flag is up, and whether its insertion is still to be counted, are what the last steps
// on it made them.
module DataLife {
  import opened Basics
  import opened Heap
  import opened Steps
  import opened Invariant
  import opened Theorems
  import opened Pointers

  datatype Stage = Absent | Raw | Written | Listed

  function StageOf(s: State, d: DataId): Stage {
    if d !in s.data then Absent
    else match s.data[d].status
      case Building => Raw
      case Ready => Written
      case _ => Listed
  }

  /** How far step `e` brings `d`. */
  function Brings(e: Step, d: DataId): Option<Stage> {
    if !e.ByProgram? then None
    else match e.program
      case New(x, _, _) => if x == d then Some(Written) else None
      case NewUninit(x, _) => if x == d then Some(Raw) else None
      case WriteInit(x, _) => if x == d then Some(Written) else None
      case Track(x, _) => if x == d then Some(Listed) else None
      case _ => None
  }

  /** What step `e` makes of the flag that says `d` is deallocated, or not ready. */
  function Flags(e: Step, d: DataId): Option<bool> {
    match e
    case ByProgram(Flag(x)) => if x == d then Some(true) else None
    case ByProgram(Unflag(x)) => if x == d then Some(false) else None
    case ByDropper(FlagOne(x)) => if x == d then Some(true) else None
    case _ => None
  }

  /** What step `e` makes of the insertion of `d`: begun and uncounted, or counted. */
  function Counts(e: Step, d: DataId): Option<bool> {
    match e
    case ByProgram(Track(x, _)) => if x == d then Some(true) else None
    case ByProgram(CountUp(x)) => if x == d then Some(false) else None
    case _ => None
  }

  /** The last of the first `i` steps that made something made `v` of it; none made it `v`. */
  function Last<T>(steps: seq<Step>, i: nat, made: Step -> Option<T>, first: T): T
    requires i <= |steps|
  {
    if i == 0 then first
    else match made(steps[i-1])
      case Some(v) => v
      case None => Last(steps, i - 1, made, first)
  }

  predicate Flagged(s: State, d: DataId) {
    d in s.data && s.data[d].deallocated
  }

  /** What a step makes of an allocation, in all three respects. */
  ghost predicate LifeStep(s: State, e: Step, s': State, d: DataId) {
    && StageOf(s', d) == (if Brings(e, d).Some? then Brings(e, d).value else StageOf(s, d))
    && Flagged(s', d) == (if Flags(e, d).Some? then Flags(e, d).value else Flagged(s, d))
    && (d in s'.counting) == (if Counts(e, d).Some? then Counts(e, d).value else d in s.counting)
  }

  lemma LifeByProgram(s: State, p: ProgramStep, d: DataId)
    requires ProgramEnabled(s, p)
    ensures LifeStep(s, ByProgram(p), ProgramApply(s, p), d)
  {
    hide LiveOwner;
  }

  lemma LifeByCollector(s: State, c: CollectorStep, d: DataId)
    requires CollectorEnabled(s, c)
    ensures LifeStep(s, ByCollector(c), CollectorApply(s, c), d)
  {
    if c.Note? || c.LockData? || c.ReleaseOne? || c.SweepVisit? {
      VisitsKeepStage(s, c, d);
    } else {
      NoVisit(s, c);
    }
    hide CollectorApply;
  }

  lemma VisitsKeepStage(s: State, c: CollectorStep, d: DataId)
    requires CollectorEnabled(s, c) && (c.Note? || c.LockData? || c.ReleaseOne? || c.SweepVisit?)
    ensures LifeStep(s, ByCollector(c), CollectorApply(s, c), d)
  {
  }

  lemma NoVisit(s: State, c: CollectorStep)
    requires CollectorEnabled(s, c) && !(c.Note? || c.LockData? || c.ReleaseOne? || c.SweepVisit?)
    ensures CollectorApply(s, c).data == s.data && CollectorApply(s, c).counting == s.counting
  {
  }

  lemma LifeByWorker(s: State, w: WorkerStep, d: DataId)
    requires WorkerEnabled(s, w)
    ensures LifeStep(s, ByWorker(w), WorkerApply(s, w), d)
  {
  }

  lemma LifeByDropper(s: State, p: DropperStep, d: DataId)
    requires BatchInv(s) && HandleInv(s) && DropperEnabled(s, p)
    ensures LifeStep(s, ByDropper(p), DropperApply(s, p), d)
  {
  }

  lemma LifeByStep(s: State, e: Step, d: DataId)
    requires Inv(s) && Enabled(s, e)
    ensures LifeStep(s, e, Apply(s, e), d)
  {
    match e {
      case ByProgram(p) => LifeByProgram(s, p, d); hide Inv, ProgramEnabled, ProgramApply, LifeStep;
      case ByCollector(c) => LifeByCollector(s, c, d); hide Inv, CollectorEnabled, CollectorApply, LifeStep;
      case ByWorker(w) => LifeByWorker(s, w, d); hide Inv, WorkerEnabled, WorkerApply, LifeStep;
      case ByDropper(p) => LifeByDropper(s, p, d); hide Inv, DropperEnabled, DropperApply, LifeStep;
    }
  }

  /** At any time the three are what the last steps on the allocation made them: it is raw,
      written or has been put into the list, its flag is up or down, and its insertion is
      or is not still to be counted. */
  lemma {:induction false} LifeIsLastStep(states: seq<State>, steps: seq<Step>, i: nat, d: DataId)
    requires Run(states, steps) && i < |states|
    ensures i <= |steps|
    ensures StageOf(states[i], d) == Last(steps, i, e => Brings(e, d), Absent)
    ensures Flagged(states[i], d) == Last(steps, i, e => Flags(e, d), false)
    ensures (d in states[i].counting) == Last(steps, i, e => Counts(e, d), false)
  {
    hide Inv, Enabled, Apply, Brings, Flags, Counts, StageOf, Flagged;
    RunLength(states, steps);
    if i == 0 {
      Nothing(d);
    } else {
      LifeIsLastStep(states, steps, i - 1, d);
      RunInv(states, steps, i - 1);
      StepOf(states, steps, i - 1);
      LifeByStep(states[i-1], steps[i-1], d);
    }
  }

  lemma Nothing(d: DataId)
    ensures StageOf(INIT, d) == Absent && !Flagged(INIT, d) && d !in INIT.counting
  {
  }
}
