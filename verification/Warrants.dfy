// Warrants over a run: the lock of an allocation counts the gets that were made on it
// minus the puts, and the collector keeps off it until they are even.
module Warrants {
  import opened Basics
  import opened Heap
  import opened Steps
  import opened Invariant
  import opened Theorems
  import opened Pointers

  /** Step `e`, by the program or by a destructor, takes a warrant on `d`. */
  predicate Gets(s: State, e: Step, d: DataId) {
    match e
    case ByProgram(Get(h)) => PointsTo(s, h) == Some(d)
    case ByDropper(DropGet(_, h)) => PointsTo(s, h) == Some(d)
    case _ => false
  }

  predicate Puts(e: Step, d: DataId) {
    e == ByProgram(Put(d))
  }

  function GetCount(states: seq<State>, steps: seq<Step>, i: nat, d: DataId): nat
    requires i <= |states| && i <= |steps|
  {
    if i == 0 then 0 else GetCount(states, steps, i - 1, d) + if Gets(states[i-1], steps[i-1], d) then 1 else 0
  }

  function PutCount(steps: seq<Step>, i: nat, d: DataId): nat
    requires i <= |steps|
  {
    Tally(steps, i, e => Puts(e, d))
  }

  /** The lock says that `n` warrants of the program are out. */
  predicate LockSays(s: State, d: DataId, n: int) {
    if d !in s.data then n == 0
    else match s.data[d].lock
      case Shared(m) => m == n
      case Exclusive => n == 0
  }

  /** How a step changes the number of warrants out. */
  ghost predicate LockStep(s: State, e: Step, s': State, d: DataId) {
    var change := (if Gets(s, e, d) then 1 else 0) - (if Puts(e, d) then 1 else 0);
    forall n: nat | LockSays(s, d, n) :: n + change >= 0 && LockSays(s', d, n + change)
  }

  lemma LockByProgram(s: State, p: ProgramStep, d: DataId)
    requires ProgramEnabled(s, p)
    ensures LockStep(s, ByProgram(p), ProgramApply(s, p), d)
  {
    hide LiveOwner;
  }

  lemma LockByCollector(s: State, c: CollectorStep, d: DataId)
    requires CollectorEnabled(s, c)
    ensures LockStep(s, ByCollector(c), CollectorApply(s, c), d)
  {
  }

  lemma LockByWorker(s: State, w: WorkerStep, d: DataId)
    requires WorkerEnabled(s, w)
    ensures LockStep(s, ByWorker(w), WorkerApply(s, w), d)
  {
  }

  lemma LockByDropper(s: State, p: DropperStep, d: DataId)
    requires HandleInv(s) && DropperEnabled(s, p)
    ensures LockStep(s, ByDropper(p), DropperApply(s, p), d)
  {
  }

  lemma LockByStep(s: State, e: Step, d: DataId)
    requires HandleInv(s) && Enabled(s, e)
    ensures LockStep(s, e, Apply(s, e), d)
  {
    match e {
      case ByProgram(p) => LockByProgram(s, p, d); hide ProgramEnabled, ProgramApply, LockStep;
      case ByCollector(c) => LockByCollector(s, c, d); hide CollectorEnabled, CollectorApply, LockStep;
      case ByWorker(w) => LockByWorker(s, w, d); hide WorkerEnabled, WorkerApply, LockStep;
      case ByDropper(p) => LockByDropper(s, p, d); hide DropperEnabled, DropperApply, LockStep;
    }
  }

  lemma HandlesTyped(s: State)
    requires Inv(s)
    ensures HandleInv(s)
  {
  }

  function Out(states: seq<State>, steps: seq<Step>, i: nat, d: DataId): int
    requires i <= |states| && i <= |steps|
  {
    GetCount(states, steps, i, d) - PutCount(steps, i, d)
  }

  /** No warrant is lost or made up: at any time the lock is shared by as many as have been
      taken and not given back, or exclusive, and then none is out. */
  lemma {:induction false} WarrantsConserved(states: seq<State>, steps: seq<Step>, i: nat, d: DataId)
    requires Run(states, steps) && i < |states|
    ensures i <= |steps| && Out(states, steps, i, d) >= 0 && LockSays(states[i], d, Out(states, steps, i, d))
  {
    hide Inv, Enabled, Apply, Gets, Puts, LockSays;
    RunLength(states, steps);
    if i == 0 {
      NothingOut(d);
    } else {
      WarrantsConserved(states, steps, i - 1, d);
      RunInv(states, steps, i - 1);
      HandlesTyped(states[i-1]);
      StepOf(states, steps, i - 1);
      LockByStep(states[i-1], steps[i-1], d);
      var n: nat := Out(states, steps, i - 1, d);
      assert LockSays(states[i-1], d, n);
    }
  }

  lemma NothingOut(d: DataId)
    ensures LockSays(INIT, d, 0)
  {
  }

  /** While fewer puts than gets have been made on `d`, it is in use; then no step takes the
      exclusive warrant on it, stamps what lies in it or sweeps it, and no worker scans it. */
  lemma HeldIsLeftAlone(states: seq<State>, steps: seq<Step>, i: nat, d: DataId)
    requires Run(states, steps) && i < |steps| && Out(states, steps, i, d) > 0
    ensures InUse(states[i], d)
    ensures d in states[i+1].data && states[i+1].data[d].lock.Shared?
    ensures !IsSwept(states[i+1], d) && states[i+1].data[d].status != Freed
    ensures forall h | OwnedBy(states[i], h, d) ::
              h in states[i+1].handles && states[i+1].handles[h].stamp == states[i].handles[h].stamp
    ensures forall a: nat | Worker?(states[i], a) && states[i].phase.workers[a].Scanning? ::
              states[i].phase.workers[a].data != d
  {
    WarrantsConserved(states, steps, i, d);
    hide Out;
    RunInv(states, steps, i);
    StepOf(states, steps, i);
    HeldByStep(states[i], steps[i], d);
    forall a: nat | Worker?(states[i], a) && states[i].phase.workers[a].Scanning?
      ensures states[i].phase.workers[a].data != d
    {
      ScannedIsLocked(states[i], a);
    }
    hide Inv, Enabled, Apply;
  }

  lemma ScannedIsLocked(s: State, a: nat)
    requires Inv(s) && Worker?(s, a) && s.phase.workers[a].Scanning?
    ensures s.phase.workers[a].data in s.data && s.data[s.phase.workers[a].data].lock == Exclusive
  {
    assert ScanOk(s, s.phase.workers[a]);
  }

  /** What a step leaves of data that is in use, and of the handles in it. */
  ghost predicate LeftAlone(s: State, s': State, d: DataId) {
    && d in s'.data && s'.data[d].lock.Shared? && s'.data[d].status != Swept && s'.data[d].status != Freed
    && forall h | OwnedBy(s, h, d) :: h in s'.handles && s'.handles[h].stamp == s.handles[h].stamp
  }

  lemma HeldByStep(s: State, e: Step, d: DataId)
    requires Inv(s) && Enabled(s, e) && InUse(s, d)
    ensures LeftAlone(s, Apply(s, e), d)
  {
    InUseIntact(s, d);
    match e {
      case ByProgram(p) => HeldByProgram(s, p, d); hide ProgramEnabled, ProgramApply, LeftAlone, Inv;
      case ByCollector(c) => HeldByCollector(s, c, d); hide CollectorEnabled, CollectorApply, LeftAlone, Inv;
      case ByWorker(w) => HeldByWorker(s, w, d); hide WorkerEnabled, WorkerApply, LeftAlone, Inv;
      case ByDropper(p) => HeldByDropper(s, p, d); hide DropperEnabled, DropperApply, LeftAlone, Inv;
    }
  }

  lemma InUseIntact(s: State, d: DataId)
    requires Inv(s) && InUse(s, d)
    ensures !Doomed(s, d) && Post(s) && (s.phase.Sweep? && s.data[d].status == Tracked ==> Kept(s, d))
    ensures s.data[d].status != Swept && s.data[d].status != Freed
  {
    assert DatumOk(s, s.data[d]);
    hide Post;
  }

  lemma HeldByProgram(s: State, p: ProgramStep, d: DataId)
    requires ProgramEnabled(s, p) && InUse(s, d) && s.data[d].status != Swept && s.data[d].status != Freed
    ensures LeftAlone(s, ProgramApply(s, p), d)
  {
    hide LiveOwner;
  }

  lemma HeldByCollector(s: State, c: CollectorStep, d: DataId)
    requires CollectorEnabled(s, c) && InUse(s, d) && s.data[d].status != Swept && s.data[d].status != Freed
    requires s.phase.Sweep? && s.data[d].status == Tracked ==> Kept(s, d)
    ensures LeftAlone(s, CollectorApply(s, c), d)
  {
  }

  lemma HeldByWorker(s: State, w: WorkerStep, d: DataId)
    requires WorkerEnabled(s, w) && InUse(s, d) && s.data[d].status != Swept && s.data[d].status != Freed
    ensures LeftAlone(s, WorkerApply(s, w), d)
  {
  }

  lemma HeldByDropper(s: State, p: DropperStep, d: DataId)
    requires Post(s) && DropperEnabled(s, p) && InUse(s, d) && s.data[d].status != Swept && s.data[d].status != Freed
    ensures LeftAlone(s, DropperApply(s, p), d)
  {
  }
}
