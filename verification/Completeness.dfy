// The other half: garbage goes. A set of tracked allocations that nobody outside points
// into is swept by the next collection, whatever the program does meanwhile.
module Completeness {
  import opened Heap
  import opened Steps
  import opened Invariant
  import opened ProgramProofs
  import opened MarkProofs
  import opened Theorems

  /** Every registered pointer into `G` lies in `G` and is reported. */
  ghost predicate Enclosed(s: State, G: set<DataId>) {
    forall h | Registered(s, h) && s.handles[h].target in G ::
      s.handles[h].owner.Inside? && s.handles[h].owner.reported && s.handles[h].owner.data in G
  }

  /** Tracked, not in use, and pointed to only from within. */
  ghost predicate Isolated(s: State, G: set<DataId>) {
    && Enclosed(s, G)
    && (forall d | d in G :: d in s.data && s.data[d].status == Tracked && s.data[d].lock == Shared(0))
    && (forall t | t in s.guards && s.guards[t].Some? :: s.guards[t].value !in G)
  }

  predicate Unused(s: State, d: DataId) {
    d in s.data && (s.data[d].lock == Shared(0) || s.data[d].lock == Exclusive)
  }

  /** Locked and not marked. */
  predicate Untouched(s: State, d: DataId) {
    d in s.data && s.data[d].status == Tracked && s.data[d].lock == Exclusive && s.data[d].mark == s.epoch - 1
  }

  /** How far the collection has come with `G`. */
  ghost predicate Progress(s: State, G: set<DataId>) {
    match s.phase
    case DataPass(todo, _) =>
      forall d | d in G :: Untouched(s, d) || (d in todo && d in s.data && s.data[d].status == Tracked)
    case HandlePass(_, found) =>
      && (forall d | d in G :: Untouched(s, d))
      && (forall h | h in found :: h in s.handles && s.handles[h].target !in G)
    case Mark(_, _, _, _, _) =>
      && (forall d | d in G :: Untouched(s, d))
      && (forall h | Pending(s, h) :: h in s.handles && s.handles[h].target !in G)
    case Release => forall d | d in G :: d in s.data && s.data[d].status == Tracked && s.data[d].mark == s.epoch - 1
    case Sweep(todo, _) =>
      forall d | d in G :: IsSwept(s, d) || (d in todo && d in s.data && s.data[d].mark == s.epoch - 1)
    case _ => false
  }

  ghost predicate Forlorn(s: State, G: set<DataId>) {
    Enclosed(s, G) && (forall d | d in G :: Unused(s, d)) && Progress(s, G)
  }

  /** Nothing in such a set is live. */
  lemma EnclosedIsDead(s: State, G: set<DataId>, d: DataId)
    requires HandleInv(s) && Enclosed(s, G) && (forall x | x in G :: Unused(s, x)) && s.guards == map[]
    requires Live(s, d)
    ensures d !in G
  {
    var S := s.data.Keys - G;
    assert LiveClosed(s, S) by {
      forall h | HeldBy(s, h, S) ensures s.handles[h].target in S {
        assert Registered(s, h);
      }
    }
  }

  /** A step that leaves `G` and the pointers into it alone, but may drop some. */
  ghost predicate Aloof(s: State, s': State, G: set<DataId>) {
    && s'.phase == s.phase && s'.epoch == s.epoch
    && (forall d | d in G :: d in s.data && d in s'.data && s'.data[d] == s.data[d])
    && (forall h | h in s.handles :: h in s'.handles && s'.handles[h].target == s.handles[h].target)
    && (forall h | h in s.handles && Registered(s', h) && s.handles[h].target in G :: s'.handles[h] == s.handles[h])
    && (forall h | h in s'.handles && h !in s.handles :: s'.handles[h].target !in G)
  }

  lemma AloofForlorn(s: State, s': State, G: set<DataId>)
    requires Forlorn(s, G) && Aloof(s, s', G)
    ensures Forlorn(s', G)
  {
  }

  /** What the program cannot reach it does not touch. */
  ghost predicate OutOfReach(s: State, G: set<DataId>) {
    && s.guards == map[] && s.phase != Quiet
    && Enclosed(s, G) && (forall d | d in G :: Unused(s, d))
    && (forall h | LiveOwner(s, h) :: s.handles[h].target !in G)
  }

  lemma PointersAloof(s: State, p: ProgramStep, G: set<DataId>)
    requires OutOfReach(s, G) && ProgramEnabled(s, p)
    requires p.Clone? || p.Drop? || p.MoveIn? || p.MoveOut? || p.Get? || p.Put? || p.UserSync?
    ensures Aloof(s, ProgramApply(s, p), G)
  {
    hide LiveOwner;
  }

  lemma BuildingAloof(s: State, p: ProgramStep, G: set<DataId>)
    requires OutOfReach(s, G) && ProgramEnabled(s, p)
    requires p.New? || p.NewUninit? || p.Flag? || p.Unflag? || p.WriteInit? || p.Track? || p.CountUp?
    requires forall d | d in G :: s.data[d].status == Tracked || s.data[d].status == Swept
    ensures Aloof(s, ProgramApply(s, p), G)
  {
    hide LiveOwner;
  }

  lemma AtomicAloof(s: State, p: ProgramStep, G: set<DataId>)
    requires OutOfReach(s, G) && ProgramEnabled(s, p)
    requires || p.AtomicNew? || p.GuardTake? || p.AtomicLoad? || p.AtomicStore?
             || p.AtomicSwap? || p.AtomicCas? || p.AtomicRegister? || p.GuardDrop?
    ensures Aloof(s, ProgramApply(s, p), G)
  {
    hide LiveOwner;
  }

  lemma ForlornOutOfReach(s: State, G: set<DataId>)
    requires Inv(s) && Forlorn(s, G)
    ensures OutOfReach(s, G)
    ensures forall d | d in G :: s.data[d].status == Tracked || s.data[d].status == Swept
  {
    assert s.guards == map[];
    forall h | LiveOwner(s, h) ensures s.handles[h].target !in G {
      TargetLive(s, h);
      EnclosedIsDead(s, G, s.handles[h].target);
    }
    hide Inv, Live, Enclosed;
  }

  lemma ProgramForlorn(s: State, p: ProgramStep, G: set<DataId>)
    requires Inv(s) && Forlorn(s, G) && ProgramEnabled(s, p)
    ensures Forlorn(ProgramApply(s, p), G)
  {
    hide Inv, Forlorn, OutOfReach, Aloof, ProgramEnabled, ProgramApply;
    ForlornOutOfReach(s, G);
    if p.New? || p.NewUninit? || p.Flag? || p.Unflag? || p.WriteInit? || p.Track? || p.CountUp? {
      BuildingAloof(s, p, G);
    } else if p.Clone? || p.Drop? || p.MoveIn? || p.MoveOut? || p.Get? || p.Put? || p.UserSync? {
      PointersAloof(s, p, G);
    } else {
      AtomicAloof(s, p, G);
    }
    AloofForlorn(s, ProgramApply(s, p), G);
  }

  lemma DropperForlorn(s: State, p: DropperStep, G: set<DataId>)
    requires Inv(s) && Forlorn(s, G) && DropperEnabled(s, p)
    ensures Forlorn(DropperApply(s, p), G)
  {
    OnlySyncUps(s, p, G);
    hide Inv, DropperEnabled, DropperApply, Forlorn;
    AloofForlorn(s, DropperApply(s, p), G);
  }

  lemma OnlySyncUps(s: State, p: DropperStep, G: set<DataId>)
    requires MailInv(s) && Forlorn(s, G) && DropperEnabled(s, p)
    ensures Aloof(s, DropperApply(s, p), G)
  {
  }

  lemma MoveForlorn(s: State, s': State, G: set<DataId>)
    requires Forlorn(s, G) && WorkerMove(s, s')
    ensures Forlorn(s', G)
  {
  }

  /** A worker marks what something pending points to, and goes on to what that reports. */
  lemma MarkForlorn(s: State, s': State, i: nat, d: DataId, G: set<DataId>)
    requires Forlorn(s, G) && Marks(s, s', i, d) && Pending(s, s.phase.workers[i].handle)
    requires forall h | Pending(s', h) :: Pending(s, h) || h in ReportedIn(s, d)
    ensures Forlorn(s', G)
  {
    hide WorkerApply, Pending;
    assert forall h | h in ReportedIn(s, d) :: Registered(s, h);
  }

  lemma WorkerForlorn(s: State, w: WorkerStep, G: set<DataId>)
    requires Inv(s) && Forlorn(s, G) && WorkerEnabled(s, w)
    ensures Forlorn(WorkerApply(s, w), G)
  {
    var s' := WorkerApply(s, w);
    if w.SwapMark? && s.data[s.handles[s.phase.workers[w.i].handle].target].mark != s.epoch {
      var d := s.handles[s.phase.workers[w.i].handle].target;
      UnmarkedIsLocked(s, w.i);
      PendingSplit(s, w.i, s.phase.workers[w.i].handle);
      MarksPending(s, s', w.i, d);
      MarkForlorn(s, s', w.i, d, G);
    } else {
      SimpleStep(s, w);
      MoveForlorn(s, s', G);
    }
    hide Inv, WorkerApply, WorkerEnabled, Pending, Forlorn, Marks, WorkerMove;
  }

  lemma NoteForlorn(s: State, d: DataId, G: set<DataId>)
    requires Forlorn(s, G) && CollectorEnabled(s, Note(d))
    ensures Forlorn(Noted(s, d), G)
  {
  }

  lemma LockForlorn(s: State, d: DataId, G: set<DataId>)
    requires MarkInv(s) && Forlorn(s, G) && CollectorEnabled(s, LockData(d))
    ensures Forlorn(Visited(s, d), G)
  {
    assert d in TrackedData(s) && MarkOk(s, d, s.data[d]);
  }

  /** All pointers into `G` are stamped, so none is taken for a root. */
  lemma HandlePassForlorn(s: State, c: CollectorStep, G: set<DataId>)
    requires StampInv(s) && Forlorn(s, G) && CollectorEnabled(s, c)
    requires c.DataPassEnd? || c.SeeHandle? || c.HandlePassEnd?
    ensures Forlorn(CollectorApply(s, c), G)
  {
  }

  lemma ReleaseForlorn(s: State, c: CollectorStep, G: set<DataId>)
    requires Forlorn(s, G) && CollectorEnabled(s, c)
    requires c.MarkEnd? || c.ReleaseOne? || c.ReleaseEnd?
    ensures Forlorn(CollectorApply(s, c), G)
  {
  }

  lemma SweepForlorn(s: State, d: DataId, G: set<DataId>)
    requires s.epoch >= 2 && Forlorn(s, G) && CollectorEnabled(s, SweepVisit(d))
    ensures Forlorn(CollectorApply(s, SweepVisit(d)), G)
  {
  }

  lemma CollectorForlorn(s: State, c: CollectorStep, G: set<DataId>)
    requires Inv(s) && Forlorn(s, G) && CollectorEnabled(s, c) && !c.SweepEnd?
    ensures Forlorn(CollectorApply(s, c), G)
  {
    hide Safe, Post, Tracing, Forlorn, Noted, Visited;
    if c.Note? {
      NoteForlorn(s, c.d, G);
    } else if c.LockData? {
      LockForlorn(s, c.d, G);
    } else if c.DataPassEnd? || c.SeeHandle? || c.HandlePassEnd? {
      HandlePassForlorn(s, c, G);
    } else {
      InProgress(s, G);
      if c.SweepVisit? { SweepForlorn(s, c.d, G); } else { ReleaseForlorn(s, c, G); }
    }
  }

  lemma InProgress(s: State, G: set<DataId>)
    requires Forlorn(s, G)
    ensures s.phase.DataPass? || s.phase.HandlePass? || s.phase.Mark? || s.phase.Release? || s.phase.Sweep?
  {
  }

  lemma StepForlorn(s: State, e: Step, s': State, G: set<DataId>)
    requires Inv(s) && Next(s, e, s') && Forlorn(s, G) && e != ByCollector(SweepEnd)
    ensures Forlorn(s', G)
  {
    match e {
      case ByProgram(p) => ProgramForlorn(s, p, G); hide Inv, ProgramEnabled, ProgramApply, Forlorn;
      case ByCollector(c) => CollectorForlorn(s, c, G); hide Inv, CollectorEnabled, CollectorApply, Forlorn;
      case ByWorker(w) => WorkerForlorn(s, w, G); hide Inv, WorkerEnabled, WorkerApply, Forlorn;
      case ByDropper(p) => DropperForlorn(s, p, G); hide Inv, DropperEnabled, DropperApply, Forlorn;
    }
  }

  // ---- over a collection

  /** Steps `i` to `j` are one collection, from its sync-up to the end of its sweep. */
  predicate OneCollection(steps: seq<Step>, i: nat, j: nat) {
    && i < j < |steps| && steps[i] == ByCollector(SyncReturn) && steps[j] == ByCollector(SweepEnd)
    && forall k | i < k < j :: steps[k] != ByCollector(SweepEnd)
  }

  lemma Begins(s: State, G: set<DataId>)
    requires Isolated(s, G) && CollectorEnabled(s, SyncReturn)
    ensures Forlorn(CollectorApply(s, SyncReturn), G)
  {
  }

  lemma {:induction false} StaysForlorn(states: seq<State>, steps: seq<Step>, i: nat, j: nat, k: nat, G: set<DataId>)
    requires Run(states, steps) && OneCollection(steps, i, j) && i < k <= j
    requires Isolated(states[i], G)
    ensures Inv(states[k]) && Forlorn(states[k], G)
  {
    hide Inv, Forlorn, Isolated, Run;
    RunLength(states, steps);
    RunStep(states, steps, k - 1);
    hide Next;
    if k == i + 1 {
      Begins(states[i], G);
    } else {
      StaysForlorn(states, steps, i, j, k - 1, G);
      StepForlorn(states[k-1], steps[k-1], states[k], G);
    }
  }

  lemma SweptInTheEnd(s: State, G: set<DataId>)
    requires Forlorn(s, G) && CollectorEnabled(s, SweepEnd)
    ensures forall d | d in G :: IsSwept(s, d)
  {
  }

  /** What nobody outside points into when a collection begins is swept by that
      collection, under every interleaving: cycles of garbage go. */
  lemma GarbageGoes(states: seq<State>, steps: seq<Step>, i: nat, j: nat, G: set<DataId>)
    requires Run(states, steps) && OneCollection(steps, i, j) && Isolated(states[i], G)
    ensures j < |states| && forall d | d in G :: IsSwept(states[j], d)
  {
    hide Inv, Forlorn, Isolated;
    RunLength(states, steps);
    StaysForlorn(states, steps, i, j, j, G);
    assert Next(states[j], steps[j], states[j+1]);
    SweptInTheEnd(states[j], G);
  }

  /** Every pointer inside unreachable data is reported, and that data is tracked. */
  ghost predicate GarbageReported(s: State) {
    forall h | Registered(s, h) && s.handles[h].owner.Inside? && !Live(s, s.handles[h].owner.data) ::
      s.handles[h].owner.reported && s.handles[h].owner.data in TrackedData(s)
  }

  lemma UnreachableIsIsolated(s: State)
    requires Inv(s) && s.phase.Syncing? && GarbageReported(s)
    ensures Isolated(s, set d | d in TrackedData(s) && !Live(s, d))
  {
    var G := set d | d in TrackedData(s) && !Live(s, d);
    forall d | d in G ensures s.data[d].lock == Shared(0) {
      assert DatumOk(s, s.data[d]) && !InUse(s, d);
    }
    forall h | Registered(s, h) && s.handles[h].target in G
      ensures s.handles[h].owner.Inside? && !Live(s, s.handles[h].owner.data)
    {
      if s.handles[h].owner.Inside? ==> Live(s, s.handles[h].owner.data) { PointsToLive(s, h); }
    }
    hide Live;
  }

  lemma PointsToLive(s: State, h: HandleId)
    requires HandleInv(s) && Registered(s, h)
    requires s.handles[h].owner.Inside? ==> Live(s, s.handles[h].owner.data)
    ensures Live(s, s.handles[h].target)
  {
    TargetLive(s, h);
  }

  /** If `Scan` reports all the handles of unreachable data, then everything tracked that no
      chain of handles leads to when a collection begins is swept by it. */
  lemma AllGarbageGoes(states: seq<State>, steps: seq<Step>, i: nat, j: nat, d: DataId)
    requires Run(states, steps) && OneCollection(steps, i, j) && GarbageReported(states[i])
    requires d in TrackedData(states[i]) && !PathTo(states[i], d)
    ensures j < |states| && IsSwept(states[j], d)
  {
    RunStep(states, steps, i);
    var s := states[i];
    assert WellTyped(s);
    LiveIsReachability(s, d);
    UnreachableIsIsolated(s);
    hide Inv, Live, Isolated, PathTo, GarbageReported;
    GarbageGoes(states, steps, i, j, set x | x in TrackedData(s) && !Live(s, x));
  }
}
