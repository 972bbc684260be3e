// What holds in every run: any number of program threads, mark workers and
// collections, interleaved step by step with the dropper.
module Theorems {
  import opened Heap
  import opened Steps
  import opened Invariant
  import opened ProgramProofs
  import opened DropperProofs
  import opened CollectorProofs
  import opened MarkProofs

  /** A run from the start of the program. */
  ghost predicate Run(states: seq<State>, steps: seq<Step>) {
    && |states| == |steps| + 1
    && states[0] == INIT
    && forall i | 0 <= i < |steps| :: Next(states[i], steps[i], states[i+1])
  }

  lemma StepInv(s: State, e: Step, s': State)
    requires Inv(s) && Next(s, e, s')
    ensures Inv(s')
  {
    match e
    case ByProgram(p) => ProgramStepInv(s, p);
    case ByCollector(c) => CollectorStepInv(s, c);
    case ByWorker(w) => WorkerStepInv(s, w);
    case ByDropper(d) => DropperStepInv(s, d);
  }

  lemma {:induction false} RunInv(states: seq<State>, steps: seq<Step>, i: nat)
    requires Run(states, steps) && i < |states|
    ensures Inv(states[i])
  {
    hide Inv, Enabled, Apply;
    if i == 0 {
      InitInv();
    } else {
      RunInv(states, steps, i - 1);
      StepInv(states[i-1], steps[i-1], states[i]);
    }
  }

  lemma RunStep(states: seq<State>, steps: seq<Step>, i: nat)
    requires Run(states, steps) && i < |steps|
    ensures Inv(states[i]) && Inv(states[i+1]) && Next(states[i], steps[i], states[i+1])
  {
    RunInv(states, steps, i);
    RunInv(states, steps, i + 1);
    hide Inv, Next;
  }

  predicate Intact(s: State, d: DataId) {
    d in s.data && (s.data[d].status == Building || s.data[d].status == Ready || s.data[d].status == Tracked)
  }

  /** Safety: whatever the program can reach, by any chain of pointers, is intact. */
  lemma ReachableIsIntact(states: seq<State>, steps: seq<Step>, i: nat, d: DataId)
    requires Run(states, steps) && i < |states| && PathTo(states[i], d)
    ensures Intact(states[i], d)
  {
    RunInv(states, steps, i);
    LiveIsReachability(states[i], d);
    LiveNotDoomed(states[i], d);
  }

  /** A sweep takes only what no chain of pointers leads to, at that very moment. */
  lemma SweptIsUnreachable(states: seq<State>, steps: seq<Step>, i: nat, d: DataId)
    requires Run(states, steps) && i < |steps| && steps[i] == ByCollector(SweepVisit(d))
    requires states[i+1].data[d].status == Swept
    ensures !PathTo(states[i], d) && !PathTo(states[i+1], d)
  {
    RunStep(states, steps, i);
    LiveIsReachability(states[i], d);
    LiveIsReachability(states[i+1], d);
    if Live(states[i], d) { LiveNotDoomed(states[i], d); }
    if Live(states[i+1], d) { LiveNotDoomed(states[i+1], d); }
  }

  /** Tracked, left unmarked by the finished mark phase, and about to be swept. */
  predicate Condemned(s: State, d: DataId) {
    && d in s.data && s.data[d].status == Tracked
    && (s.phase.Release? || s.phase.Sweep?) && s.data[d].mark != 0 && s.data[d].mark != s.epoch
  }

  /** The target is intact; or the pointer lies in swept or condemned data, is reported,
      and its target is in the one batch that is under way. */
  ghost predicate SoundPointer(s: State, h: HandleId)
    requires h in s.handles
  {
    var o := s.handles[h].owner;
    || Intact(s, s.handles[h].target)
    || (o.Inside? && o.reported && (IsSwept(s, o.data) || Condemned(s, o.data)) && Outstanding(s, s.handles[h].target))
  }

  /** No dangling pointers, over any number of collections: what the program holds, what
      lies in intact data, and what a deallocation leaves registered points at intact
      data; a pointer inside swept data points at intact data or into the one batch that
      is under way. */
  lemma NoDangling(states: seq<State>, steps: seq<Step>, i: nat, h: HandleId)
    requires Run(states, steps) && i < |states| && Registered(states[i], h)
    ensures SoundPointer(states[i], h)
  {
    RunInv(states, steps, i);
    AllSound(states[i], h);
  }

  lemma AllSound(s: State, h: HandleId)
    requires Inv(s) && Registered(s, h)
    ensures SoundPointer(s, h)
  {
    assert DangleOk(s, h);
  }

  /** A destructor that reads through a pointer of its own data meets intact data, or
      data whose flag is up and makes the read fail. */
  lemma DestructorReads(states: seq<State>, steps: seq<Step>, i: nat, d: DataId, h: HandleId)
    requires Run(states, steps) && i < |states|
    requires states[i].work.Dropping? && d in states[i].work.left
    requires h in states[i].handles && states[i].handles[h].owner.Inside? && states[i].handles[h].owner.data == d
    ensures var s := states[i];
            var t := s.handles[h].target;
            Intact(s, t) || (t in s.data && s.data[t].deallocated)
  {
    RunInv(states, steps, i);
    DropTarget(states[i], d, h);
  }

  // ---- the frozen graph

  predicate OwnedBy(s: State, h: HandleId, d: DataId) {
    h in s.handles && s.handles[h].owner.Inside? && s.handles[h].owner.data == d
  }

  /** From the first stamp to the end of marking, the handles that carry the current
      number are exactly those reported by an allocation whose warrant the collector
      holds. */
  lemma StampedIsLocked(states: seq<State>, steps: seq<Step>, i: nat, h: HandleId)
    requires Run(states, steps) && i < |states| && Frozen(states[i]) && h in states[i].handles
    ensures states[i].handles[h].stamp == states[i].epoch <==> LockedIn(states[i], states[i].handles[h].owner)
  {
    RunInv(states, steps, i);
  }

  /** A locked allocation does not change: same handles inside, same targets, and it
      stays locked until the release. */
  lemma LockedIsFrozen(states: seq<State>, steps: seq<Step>, i: nat, d: DataId)
    requires Run(states, steps) && i < |steps| && Frozen(states[i]) && Frozen(states[i+1])
    requires d in states[i].data && states[i].data[d].lock == Exclusive
    ensures d in states[i+1].data && states[i+1].data[d].lock == Exclusive
    ensures forall h | OwnedBy(states[i], h, d) ::
            h in states[i+1].handles && states[i+1].handles[h] == states[i].handles[h]
    ensures forall h | OwnedBy(states[i+1], h, d) :: OwnedBy(states[i], h, d)
  {
    RunStep(states, steps, i);
    StepFreezes(states[i], steps[i], states[i+1], d);
    hide *;
  }

  lemma StepFreezes(s: State, e: Step, s': State, d: DataId)
    requires Inv(s) && Next(s, e, s') && Frozen(s) && Frozen(s')
    requires d in s.data && s.data[d].lock == Exclusive
    ensures d in s'.data && s'.data[d].lock == Exclusive
    ensures forall h | OwnedBy(s, h, d) :: h in s'.handles && s'.handles[h] == s.handles[h]
    ensures forall h | OwnedBy(s', h, d) :: OwnedBy(s, h, d)
  {
    match e {
      case ByProgram(p) => ProgramFreezes(s, p, d); hide Inv, ProgramEnabled, ProgramApply;
      case ByCollector(c) => CollectorFreezes(s, c, d); hide Inv, CollectorEnabled, CollectorApply;
      case ByWorker(w) => WorkerFreezes(s, w, d); hide Inv, WorkerEnabled, WorkerApply;
      case ByDropper(p) => DropperFreezes(s, p, d); hide Inv, DropperEnabled, DropperApply;
    }
  }

  lemma WorkerFreezes(s: State, w: WorkerStep, d: DataId)
    requires WorkerEnabled(s, w) && d in s.data && s.data[d].lock == Exclusive
    ensures var s' := WorkerApply(s, w);
            s'.handles == s.handles && d in s'.data && s'.data[d].lock == Exclusive
  {
  }

  lemma DropperFreezes(s: State, p: DropperStep, d: DataId)
    requires MailInv(s) && Frozen(s) && DropperEnabled(s, p) && d in s.data && s.data[d].lock == Exclusive
    ensures var s' := DropperApply(s, p);
            s'.handles == s.handles && d in s'.data && s'.data[d].lock == Exclusive
  {
  }

  lemma ProgramFreezes(s: State, p: ProgramStep, d: DataId)
    requires Inv(s) && ProgramEnabled(s, p) && d in s.data && s.data[d].lock == Exclusive && s.phase != Quiet
    ensures var s' := ProgramApply(s, p);
            && d in s'.data && s'.data[d].lock == Exclusive
            && (forall h | OwnedBy(s, h, d) :: h in s'.handles && s'.handles[h] == s.handles[h])
            && (forall h | OwnedBy(s', h, d) :: OwnedBy(s, h, d))
  {
    hide LiveOwner, Tracing, Post, MarkInv, StampInv, DangleInv, HandleInv;
    assert DatumOk(s, s.data[d]);
    assert s.guards == map[];
  }

  lemma CollectorFreezes(s: State, c: CollectorStep, d: DataId)
    requires Shape(s) && CollectorEnabled(s, c) && Frozen(s) && Frozen(CollectorApply(s, c))
    requires d in s.data && s.data[d].lock == Exclusive
    ensures var s' := CollectorApply(s, c);
            && d in s'.data && s'.data[d].lock == Exclusive
            && (forall h | OwnedBy(s, h, d) :: h in s'.handles && s'.handles[h] == s.handles[h])
            && (forall h | OwnedBy(s', h, d) :: OwnedBy(s, h, d))
  {
    hide HandleInv, DatumInv, MarkInv, StampInv;
  }

  // ---- atomic cells

  /** No handle, and so no atomic cell, changes its target once a collection has begun. */
  lemma TargetsAreStable(states: seq<State>, steps: seq<Step>, i: nat, h: HandleId)
    requires Run(states, steps) && i < |steps| && states[i].phase != Quiet
    requires h in states[i].handles
    ensures h in states[i+1].handles && states[i+1].handles[h].target == states[i].handles[h].target
  {
    RunStep(states, steps, i);
    TargetsStay(states[i], steps[i], h);
    hide *;
  }

  lemma TargetsStay(s: State, e: Step, h: HandleId)
    requires Inv(s) && Enabled(s, e) && s.phase != Quiet && h in s.handles
    ensures h in Apply(s, e).handles && Apply(s, e).handles[h].target == s.handles[h].target
  {
    assert s.guards == map[];
    StepFrame(s, e);
    hide Inv, Enabled, Apply;
  }

  /** What no step ever does: retarget a handle while no thread holds a guard, forget a
      handle or an allocation, or take back a deallocation. */
  ghost predicate Framed(s: State, s': State) {
    && (s.guards == map[] ==> forall h | h in s.handles ::
          h in s'.handles && s'.handles[h].target == s.handles[h].target)
    && (forall d | d in s.data :: d in s'.data && (s.data[d].status == Freed ==> s'.data[d].status == Freed))
  }

  lemma StepFrame(s: State, e: Step)
    requires Enabled(s, e)
    ensures Framed(s, Apply(s, e))
  {
    match e {
      case ByProgram(p) => ProgramFrame(s, p); hide ProgramEnabled, ProgramApply;
      case ByCollector(c) => CollectorFrame(s, c); hide CollectorEnabled, CollectorApply;
      case ByWorker(w) => WorkerFrame(s, w); hide WorkerEnabled, WorkerApply;
      case ByDropper(d) => DropperFrame(s, d); hide DropperEnabled, DropperApply;
    }
  }

  lemma ProgramFrame(s: State, e: ProgramStep)
    requires ProgramEnabled(s, e)
    ensures Framed(s, ProgramApply(s, e))
  {
    hide LiveOwner;
  }

  lemma CollectorFrame(s: State, e: CollectorStep)
    requires CollectorEnabled(s, e)
    ensures Framed(s, CollectorApply(s, e))
  {
  }

  lemma WorkerFrame(s: State, e: WorkerStep)
    requires WorkerEnabled(s, e)
    ensures Framed(s, WorkerApply(s, e))
  {
  }

  lemma DropperFrame(s: State, e: DropperStep)
    requires DropperEnabled(s, e)
    ensures Framed(s, DropperApply(s, e))
  {
  }

  /** A pointer read from an atomic cell and not registered yet leads to intact data. */
  lemma LoadedIsIntact(states: seq<State>, steps: seq<Step>, i: nat, t: ThreadId)
    requires Run(states, steps) && i < |states| && t in states[i].guards && states[i].guards[t].Some?
    ensures states[i].phase == Quiet && Intact(states[i], states[i].guards[t].value)
  {
    RunInv(states, steps, i);
  }

  // ---- scans

  /** A scan by a mark worker is of tracked data whose warrant the collector holds, no
      two workers scan the same data, and nothing is scanned twice in one collection. */
  lemma ScanDiscipline(states: seq<State>, steps: seq<Step>, i: nat, a: nat)
    requires Run(states, steps) && i < |states| && Worker?(states[i], a) && states[i].phase.workers[a].Scanning?
    ensures var s := states[i];
            var d := s.phase.workers[a].data;
            && d in s.data && s.data[d].status == Tracked && s.data[d].lock == Exclusive && !s.data[d].deallocated
            && s.phase.scans[d] == 1
            && forall b | 0 <= b < |s.phase.workers| && b != a && s.phase.workers[b].Scanning? ::
                  s.phase.workers[b].data != d
  {
    RunInv(states, steps, i);
    var s := states[i];
    assert ScanOk(s, s.phase.workers[a]);
    assert DatumOk(s, s.data[s.phase.workers[a].data]);
  }

  /** The data pass scans `d` only when it is tracked and with its warrant just taken. */
  lemma StampDiscipline(states: seq<State>, steps: seq<Step>, i: nat, d: DataId, h: HandleId)
    requires Run(states, steps) && i < |steps| && steps[i] == ByCollector(LockData(d))
    requires h in states[i].handles && states[i+1].handles[h].stamp != states[i].handles[h].stamp
    ensures states[i].handles[h].owner == Inside(d, true)
    ensures states[i].data[d].status == Tracked && states[i].data[d].lock == Shared(0)
    ensures states[i+1].data[d].lock == Exclusive
  {
    RunInv(states, steps, i);
    assert d in TrackedData(states[i]);
  }

  // ---- numbering

  /** Between collections no stale mark or stamp can be taken for a current one. */
  lemma NumbersAreFresh(states: seq<State>, steps: seq<Step>, i: nat)
    requires Run(states, steps) && i < |states| && states[i].phase == Quiet
    ensures var s := states[i];
            && s.epoch - 1 > 0
            && (forall d | d in s.data && s.data[d].status == Tracked ::
                  s.data[d].mark == 0 || s.data[d].mark == s.epoch - 1)
            && (forall d | d in s.data :: s.data[d].mark < s.epoch)
            && (forall h | h in s.handles :: s.handles[h].stamp < s.epoch)
  {
    RunInv(states, steps, i);
    var s := states[i];
    forall d | d in s.data ensures s.data[d].mark < s.epoch {
      assert DatumOk(s, s.data[d]);
      assert s.data[d].status == Tracked ==> MarkOk(s, d, s.data[d]);
    }
  }

  // ---- the dropper

  /** When the collector's sync-up returns, everything swept earlier has been freed and
      no reported handle of it is left to be taken for a root. */
  lemma NoFalseRoots(states: seq<State>, steps: seq<Step>, i: nat)
    requires Run(states, steps) && i < |states| && states[i].phase.DataPass?
    ensures var s := states[i];
            && (forall d | d in s.data :: s.data[d].status != Swept)
            && (forall h | Registered(s, h) && s.handles[h].owner.Inside? ::
                  || Intact(s, s.handles[h].owner.data)
                  || (IsFreed(s, s.handles[h].owner.data) && !s.handles[h].owner.reported))
  {
    RunInv(states, steps, i);
    NoSweptLeft(states[i]);
  }

  predicate IsFreed(s: State, d: DataId) {
    d in s.data && s.data[d].status == Freed
  }

  lemma NoSweptLeft(s: State)
    requires Inv(s) && s.phase.DataPass?
    ensures forall d | d in s.data :: s.data[d].status != Swept
    ensures forall h | Registered(s, h) && s.handles[h].owner.Inside? ::
              || Intact(s, s.handles[h].owner.data)
              || (IsFreed(s, s.handles[h].owner.data) && !s.handles[h].owner.reported)
  {
  }

  /** An allocation is freed only out of a batch that is flagged as a whole, and that is
      the only one under way. */
  lemma FreedInOrder(states: seq<State>, steps: seq<Step>, i: nat, d: DataId)
    requires Run(states, steps) && i < |steps| && steps[i] == ByDropper(Free(d))
    ensures WholeBatchFlagged(states[i], d)
    ensures IsSwept(states[i], d) && IsFreed(states[i+1], d)
  {
    RunStep(states, steps, i);
    FreeGuard(states[i], d);
  }

  ghost predicate WholeBatchFlagged(s: State, d: DataId) {
    && s.work.Dropping? && d in s.work.batch
    && (forall x | x in s.work.batch :: x in s.data && s.data[x].deallocated)
    && (forall x | IsSwept(s, x) :: x in s.work.batch)
  }

  lemma FreeGuard(s: State, d: DataId)
    requires Inv(s) && DropperEnabled(s, Free(d))
    ensures WholeBatchFlagged(s, d) && IsSwept(s, d)
  {
  }

  lemma RunLength(states: seq<State>, steps: seq<Step>)
    requires Run(states, steps)
    ensures |states| == |steps| + 1
  {
    hide Next;
  }

  lemma RunFrame(states: seq<State>, steps: seq<Step>, i: nat)
    requires Run(states, steps) && i < |steps|
    ensures Framed(states[i], states[i+1])
  {
    hide Enabled, Apply;
    assert Next(states[i], steps[i], states[i+1]);
    StepFrame(states[i], steps[i]);
  }

  lemma {:induction false} FreedForever(states: seq<State>, steps: seq<Step>, i: nat, j: nat, d: DataId)
    requires Run(states, steps) && i <= j < |states| && IsFreed(states[i], d)
    ensures IsFreed(states[j], d)
  {
    hide Run;
    if i < j {
      FreedForever(states, steps, i, j - 1, d);
      assert |states| == |steps| + 1 by { RunLength(states, steps); }
      RunFrame(states, steps, j - 1);
    }
  }

  /** Exactly once: no allocation is freed twice. */
  lemma FreedOnce(states: seq<State>, steps: seq<Step>, i: nat, j: nat, d: DataId)
    requires Run(states, steps) && i < |steps| && j < |steps|
    requires steps[i] == ByDropper(Free(d)) && steps[j] == ByDropper(Free(d))
    ensures i == j
  {
    FreedInOrder(states, steps, i, d);
    FreedInOrder(states, steps, j, d);
    if i < j { FreedForever(states, steps, i + 1, j, d); }
    if j < i { FreedForever(states, steps, j + 1, i, d); }
    hide Run;
  }

  // ---- inserts that are not counted yet

  /** The thread that is tracking `d` still holds a handle to it. */
  predicate CountInv(s: State) {
    forall d | d in s.counting ::
      var h := s.counting[d];
      h in s.handles && s.handles[h].owner == Heap.Program && !s.handles[h].dynamic && s.handles[h].target == d
  }

  lemma CountProgram(s: State, p: ProgramStep)
    requires CountInv(s) && ProgramEnabled(s, p)
    ensures CountInv(ProgramApply(s, p))
  {
    hide LiveOwner;
    assert forall d | d in s.counting :: s.counting[d] in s.counting.Values;
    if p.New? || p.WriteInit? { CountMoving(s, p); hide ProgramApply, CountInv; }
  }

  lemma CountMoving(s: State, p: ProgramStep)
    requires CountInv(s) && ProgramEnabled(s, p) && (p.New? || p.WriteInit?)
    ensures CountInv(ProgramApply(s, p))
  {
    assert forall d | d in s.counting :: s.counting[d] in s.counting.Values;
  }

  lemma CountCollector(s: State, c: CollectorStep)
    requires CountInv(s) && CollectorEnabled(s, c)
    ensures CountInv(CollectorApply(s, c))
  {
  }

  lemma CountWorker(s: State, w: WorkerStep)
    requires CountInv(s) && WorkerEnabled(s, w)
    ensures CountInv(WorkerApply(s, w))
  {
  }

  lemma CountDropper(s: State, p: DropperStep)
    requires CountInv(s) && DropperEnabled(s, p)
    ensures CountInv(DropperApply(s, p))
  {
  }

  lemma CountStep(s: State, e: Step)
    requires CountInv(s) && Enabled(s, e)
    ensures CountInv(Apply(s, e))
  {
    hide CountInv;
    match e {
      case ByProgram(p) => CountProgram(s, p); hide ProgramEnabled, ProgramApply;
      case ByCollector(c) => CountCollector(s, c); hide CollectorEnabled, CollectorApply;
      case ByWorker(w) => CountWorker(s, w); hide WorkerEnabled, WorkerApply;
      case ByDropper(d) => CountDropper(s, d); hide DropperEnabled, DropperApply;
    }
  }

  lemma {:induction false} RunCount(states: seq<State>, steps: seq<Step>, i: nat)
    requires Run(states, steps) && i < |states|
    ensures CountInv(states[i])
  {
    if i > 0 {
      RunCount(states, steps, i - 1);
      RunLength(states, steps);
      assert Next(states[i-1], steps[i-1], states[i-1+1]);
      hide Enabled, Apply;
      CountStep(states[i-1], steps[i-1]);
    }
  }

  /** Data whose insertion is not counted yet is reachable, so no sweep takes it. */
  lemma InFlightIsKept(states: seq<State>, steps: seq<Step>, i: nat, d: DataId)
    requires Run(states, steps) && i < |steps| && d in states[i].counting
    ensures PathTo(states[i], d) && Intact(states[i], d)
    ensures steps[i] == ByCollector(SweepVisit(d)) ==> states[i+1].data[d].status == Tracked
  {
    RunCount(states, steps, i);
    var s, h := states[i], states[i].counting[d];
    assert PathTo(s, d) by {
      assert HandlePath(s, [h]) && s.handles[[h][0]].target == d;
    }
    hide PathTo, Live;
    ReachableIsIntact(states, steps, i, d);
    if steps[i] == ByCollector(SweepVisit(d)) {
      assert Next(states[i], steps[i], states[i+1]);
      if states[i+1].data[d].status == Swept { SweptIsUnreachable(states, steps, i, d); }
    }
  }

  // ---- cyclic construction

  predicate Shut(s: State, d: DataId) {
    d in s.data && s.data[d].status == Building && s.data[d].deallocated
  }

  predicate Reads(s: State, e: Step, d: DataId) {
    && e.ByProgram? && e.program.Get?
    && e.program.h in s.handles && s.handles[e.program.h].target == d
  }

  predicate Writes(e: Step, d: DataId) {
    e.ByProgram? && e.program.WriteInit? && e.program.d == d
  }

  lemma StaysShut(s: State, e: Step, d: DataId)
    requires Inv(s) && Enabled(s, e) && Shut(s, d) && e != ByProgram(Unflag(d))
    ensures Shut(Apply(s, e), d)
  {
    match e {
      case ByProgram(p) => ProgramShut(s, p, d); hide ProgramEnabled, ProgramApply;
      case ByCollector(c) => CollectorShut(s, c, d); hide CollectorEnabled, CollectorApply;
      case ByWorker(w) => WorkerShut(s, w, d); hide WorkerEnabled, WorkerApply;
      case ByDropper(p) => DropperShut(s, p, d); hide DropperEnabled, DropperApply;
    }
  }

  lemma ProgramShut(s: State, p: ProgramStep, d: DataId)
    requires ProgramEnabled(s, p) && Shut(s, d) && p != Unflag(d)
    ensures Shut(ProgramApply(s, p), d)
  {
    hide LiveOwner;
  }

  lemma CollectorShut(s: State, c: CollectorStep, d: DataId)
    requires CollectorEnabled(s, c) && Shut(s, d)
    ensures Shut(CollectorApply(s, c), d)
  {
  }

  lemma WorkerShut(s: State, w: WorkerStep, d: DataId)
    requires WorkerEnabled(s, w) && Shut(s, d)
    ensures Shut(WorkerApply(s, w), d)
  {
  }

  lemma DropperShut(s: State, p: DropperStep, d: DataId)
    requires BatchInv(s) && DropperEnabled(s, p) && Shut(s, d)
    ensures Shut(DropperApply(s, p), d)
  {
  }

  /** From the raising of the flag to its clearing the data is neither written nor read,
      whoever has got hold of a handle to it. */
  lemma {:induction false} FlagShuts(states: seq<State>, steps: seq<Step>, i: nat, k: nat, d: DataId)
    requires Run(states, steps) && i < k < |steps| && steps[i] == ByProgram(Flag(d))
    requires forall m | i < m < k :: steps[m] != ByProgram(Unflag(d))
    ensures Shut(states[k], d) && !Reads(states[k], steps[k], d) && !Writes(steps[k], d)
  {
    hide Inv, Apply;
    assert Shut(states[k], d) by {
      RunStep(states, steps, k - 1);
      if k == i + 1 {
        FlagRaised(states[i], d);
      } else {
        FlagShuts(states, steps, i, k - 1, d);
        StaysShut(states[k-1], steps[k-1], d);
      }
    }
    RunStep(states, steps, k);
    hide LiveOwner;
  }

  lemma FlagRaised(s: State, d: DataId)
    requires Enabled(s, ByProgram(Flag(d)))
    ensures Shut(Apply(s, ByProgram(Flag(d))), d)
  {
  }

  /** Outside that time, any handle to half-built data that the program can reach can be read
      through, because such data is never locked; and the read leaves it in use. */
  lemma GetMeetsUnwritten(states: seq<State>, steps: seq<Step>, i: nat, h: HandleId)
    requires Run(states, steps) && i < |states| && LiveOwner(states[i], h) && !states[i].handles[h].dynamic
    requires states[i].handles[h].target in states[i].data
    requires states[i].data[states[i].handles[h].target].status == Building
    ensures var s, d := states[i], states[i].handles[h].target;
            && s.data[d].lock.Shared?
            && (ProgramEnabled(s, Get(h)) <==> !Shut(s, d))
            && (!Shut(s, d) ==> InUse(ProgramApply(s, Get(h)), d) && ProgramApply(s, Get(h)).data[d].status == Building)
  {
    RunInv(states, steps, i);
    assert DatumOk(states[i], states[i].data[states[i].handles[h].target]);
    hide LiveOwner;
  }

  /** And it does: the closure of `new_cyclic` leaks a clone, the flag is cleared when the
      closure returns, and the clone is read before the value is written. */
  lemma CyclicWindow() returns (states: seq<State>, steps: seq<Step>)
    ensures Run(states, steps) && steps != [] && steps[|steps|-1] == ByProgram(Get(1))
    ensures var s := states[|steps|]; 0 in s.data && s.data[0].status == Building && InUse(s, 0)
  {
    var handle := Handle(0, false, 0, Heap.Program);
    var s1 := INIT.(handles := map[0 := handle], data := map[0 := Datum(0, Shared(0), Building, false)]);
    var s2 := s1.(data := map[0 := Datum(0, Shared(0), Building, true)]);
    var s3 := s2.(handles := map[0 := handle, 1 := handle]);
    var s4 := s3.(data := s1.data);
    var s5 := s4.(data := map[0 := Datum(0, Shared(1), Building, false)]);
    steps := [ByProgram(NewUninit(0, 0)), ByProgram(Flag(0)), ByProgram(Clone(0, 1)),
              ByProgram(Unflag(0)), ByProgram(Get(1))];
    states := [INIT, s1, s2, s3, s4, s5];
    HeldIsLive(s2, 0);
    HeldIsLive(s4, 1);
    assert Next(INIT, steps[0], s1);
    assert Next(s1, steps[1], s2);
    assert Next(s2, steps[2], s3);
    assert Next(s3, steps[3], s4);
    assert Next(s4, steps[4], s5);
    hide Next;
  }

  lemma HeldIsLive(s: State, h: HandleId)
    requires h in s.handles && s.handles[h].owner == Heap.Program
    ensures LiveOwner(s, h)
  {
  }
}
