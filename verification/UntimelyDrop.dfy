// What the one condition on the program is for. The collector finds its roots by going
// through the handle list; nothing in `clone_handle` and `drop_handle` keeps a thread
// from cloning a handle into a slot that has been visited and dropping the original,
// whose slot has not. This file says exactly when that is harmful.
module UntimelyDrop {
  import opened Heap
  import opened Steps
  import opened Invariant
  import opened ProgramProofs
  import opened CollectorProofs
  import opened MarkProofs
  import opened Theorems
  import opened MarkTheorems

  /** Without relying on what is not pending, the collection still gets to `t`. */
  ghost predicate Covered(s: State, t: DataId) {
    forall S | CoverClosed(s, S) :: t in S
  }

  /** `es` is a way to go on from `s` to `s'`, with no further untimely drop. */
  ghost predicate Leads(s: State, es: seq<Step>, s': State)
    decreases |es|
  {
    if es == [] then s' == s
    else Enabled(s, es[0]) && DropTimely(s, es[0]) && Leads(Apply(s, es[0]), es[1..], s')
  }

  /** In the handle pass the program can drop a smart pointer that the pass has still to
      see; it may be an atomic cell. */
  ghost predicate Unseen(s: State, h: HandleId) {
    s.phase.HandlePass? && h in s.phase.todo && AtHand(s, h)
  }

  /** Whatever another handle that was not found in locked data points to, the collection
      gets to without `h`. */
  ghost predicate Redundant(s: State, h: HandleId)
    requires h in s.handles
  {
    forall k | k != h && Registered(s, k) && s.handles[k].stamp != s.epoch ::
      Covered(SetOwner(s, h, Gone), s.handles[k].target)
  }

  /** It clones the pointer to `k` and drops the original. */
  function AfterSwap(s: State, h: HandleId, k: HandleId): State
    requires h in s.handles && k !in s.handles
  {
    SetOwner(AddHandle(s, k, s.handles[h].target, false), h, Gone)
  }

  lemma SwapSteps(s: State, h: HandleId, k: HandleId)
    requires Inv(s) && Unseen(s, h) && !s.handles[h].dynamic && k !in s.handles
    ensures ProgramEnabled(s, Clone(h, k))
    ensures var s1 := ProgramApply(s, Clone(h, k));
            ProgramEnabled(s1, Drop(h)) && ProgramApply(s1, Drop(h)) == AfterSwap(s, h, k)
  {
  }

  // ---- harmless when covered

  lemma LateDropShape(s: State, h: HandleId)
    requires Inv(s) && Unseen(s, h)
    ensures var s' := SetOwner(s, h, Gone); Shape(s') && Safe(s') && Post(s')
  {
    hide Tracing, HandleInv, DatumInv, MarkInv, StampInv, MailInv, BatchInv, GuardInv, DangleInv, Legal;
    var s' := SetOwner(s, h, Gone);
    DropLegal(s, h);
    ShapeKept(s, s');
    PostKept(s, s');
    SafeKept(s, s');
  }

  lemma LateDropTracing(s: State, h: HandleId)
    requires Inv(s) && Unseen(s, h)
    ensures var s' := SetOwner(s, h, Gone); PendingInv(s') && ScanInv(s')
  {
    hide Safe, Post, CoverInv, TriColour, SeedInv, DatumInv, MarkInv, StampInv;
    var s' := SetOwner(s, h, Gone);
    assert forall g | Pending(s', g) :: Pending(s, g);
    assert forall d :: Doomed(s', d) <==> Doomed(s, d);
  }

  lemma LateDropCore(s: State, h: HandleId)
    requires Inv(s) && Unseen(s, h)
    ensures Core(SetOwner(s, h, Gone))
  {
    hide Inv, Shape, Safe, Post, PendingInv, ScanInv;
    LateDropShape(s, h);
    LateDropTracing(s, h);
  }

  lemma DropLegal(s: State, h: HandleId)
    requires Shape(s) && Unseen(s, h)
    ensures Legal(s, SetOwner(s, h, Gone))
  {
  }

  lemma LateCover(s: State, h: HandleId)
    requires StampInv(s) && Unseen(s, h) && Redundant(s, h)
    ensures CoverInv(SetOwner(s, h, Gone))
  {
    var s' := SetOwner(s, h, Gone);
    forall S, k | CoverClosed(s', S) && Registered(s', k) && s'.handles[k].stamp != s'.epoch
      ensures s'.handles[k].target in S
    {
      assert k != h && Covered(s', s.handles[k].target);
    }
  }

  lemma LateDropInv(s: State, h: HandleId)
    requires Inv(s) && Unseen(s, h) && Redundant(s, h)
    ensures Inv(SetOwner(s, h, Gone))
  {
    LateDropCore(s, h);
    LateCover(s, h);
    hide Shape, Safe, Post, PendingInv, CoverInv, ScanInv, Redundant;
  }

  /** If the target of `h` is still covered, so is everything. */
  lemma CoveredIsRedundant(s: State, h: HandleId)
    requires Inv(s) && Unseen(s, h) && Covered(SetOwner(s, h, Gone), s.handles[h].target)
    ensures Redundant(s, h)
  {
    hide Shape, Safe, Post, PendingInv, ScanInv;
    var s' := SetOwner(s, h, Gone);
    forall S | CoverClosed(s', S) ensures CoverClosed(s, S) {
      forall g | g in s.handles && Pending(s, g) ensures s.handles[g].target in S {
        assert g == h || Pending(s', g);
      }
      assert forall g | g in s.handles && LockedIn(s, s.handles[g].owner) :: s'.handles[g] == s.handles[g];
    }
  }

  lemma {:induction false} LeadsInv(s: State, es: seq<Step>, s': State)
    requires Inv(s) && Leads(s, es, s')
    ensures Inv(s')
    decreases |es|
  {
    hide Inv, Enabled, Apply, DropTimely;
    if es != [] {
      StepInv(s, es[0], Apply(s, es[0]));
      LeadsInv(Apply(s, es[0]), es[1..], s');
    }
  }

  // ---- harmful when not

  /** `t` lies outside a closed set, so it is not going to be marked. */
  ghost predicate Missed(s: State, S: set<DataId>, t: DataId) {
    CoverClosed(s, S) && t !in S && t in s.data && s.data[t].status == Tracked
  }

  /** Only the collection went on: handles, guards and warrants of the program are as they
      were, and what is kept has its status and is kept. */
  ghost predicate Mild(s: State, s': State) {
    && s'.handles == s.handles && s'.guards == s.guards && s'.epoch == s.epoch
    && (forall d | InUse(s', d) :: InUse(s, d))
    && (forall d | InUse(s, d) :: InUse(s', d))
    && (forall d | Kept(s, d) :: Kept(s', d) && s'.data[d].status == s.data[d].status)
  }

  /** The outcome: `t` has been swept. */
  ghost predicate Lost(s: State, s': State, t: DataId) {
    Mild(s, s') && IsSwept(s', t)
  }

  lemma LostLater(s: State, s1: State, s': State, t: DataId)
    requires Mild(s, s1) && Lost(s1, s', t)
    ensures Lost(s, s', t)
  {
  }

  lemma LeadsCons(s: State, e: Step, es: seq<Step>, s': State)
    requires Enabled(s, e) && DropTimely(s, e) && Leads(Apply(s, e), es, s')
    ensures Leads(s, [e] + es, s')
  {
    hide Enabled, Apply, DropTimely;
    assert ([e] + es)[1..] == es;
  }

  function LockedData(s: State): set<DataId> {
    set d | d in s.data && s.data[d].lock == Exclusive
  }

  lemma ReleaseStep(s: State, d: DataId)
    requires s.phase == Release && d in LockedData(s)
    ensures Enabled(s, ByCollector(ReleaseOne(d)))
    ensures var s' := Apply(s, ByCollector(ReleaseOne(d)));
            && s' == SetLock(s, d, Shared(0)) && LockedData(s') == LockedData(s) - {d} && Mild(s, s')
  {
  }

  /** Unmarked by a mark phase that has ended. */
  predicate Unkept(s: State, t: DataId) {
    t in s.data && s.data[t].status == Tracked && s.data[t].mark != 0 && s.data[t].mark != s.epoch
  }

  lemma SweepSteps(s: State, t: DataId)
    requires s.phase == Release && LockedData(s) == {} && Unkept(s, t)
    ensures Enabled(s, ByCollector(ReleaseEnd))
    ensures var s1 := Apply(s, ByCollector(ReleaseEnd));
            && Enabled(s1, ByCollector(SweepVisit(t))) && Lost(s, Apply(s1, ByCollector(SweepVisit(t))), t)
  {
    forall d | d in s.data ensures s.data[d].lock.Shared? {
      assert d !in LockedData(s);
    }
  }

  lemma {:induction false} FinishRelease(s: State, t: DataId) returns (es: seq<Step>, s': State)
    requires s.phase == Release && Unkept(s, t)
    ensures Leads(s, es, s') && Lost(s, s', t)
    decreases |LockedData(s)|
  {
    if d :| d in LockedData(s) {
      var e := ByCollector(ReleaseOne(d));
      ReleaseStep(s, d);
      hide Enabled, Apply, Mild;
      var rest;
      rest, s' := FinishRelease(Apply(s, e), t);
      LeadsCons(s, e, rest, s');
      LostLater(s, Apply(s, e), s', t);
      es := [e] + rest;
    } else {
      SweepSteps(s, t);
      hide Enabled, Apply, Lost;
      var e1, e2 := ByCollector(ReleaseEnd), ByCollector(SweepVisit(t));
      var s1 := Apply(s, e1);
      s' := Apply(s1, e2);
      LeadsCons(s1, e2, [], s');
      LeadsCons(s, e1, [e2] + [], s');
      es := [e1] + ([e2] + []);
    }
  }

  lemma SimpleCore(s: State, e: WorkerStep)
    requires Core(s) && WorkerEnabled(s, e)
    requires !e.SwapMark? || s.data[s.handles[s.phase.workers[e.i].handle].target].mark == s.epoch
    ensures Core(WorkerApply(s, e)) && WorkerMove(s, WorkerApply(s, e))
  {
    var s' := WorkerApply(s, e);
    SimpleStep(s, e);
    MoveShape(s, s');
    MovePending(s, s');
    hide Shape, Safe, Post, PendingInv, ScanInv, WorkerMove;
  }

  lemma MarkCore(s: State, i: nat, d: DataId)
    requires Core(s) && WorkerEnabled(s, SwapMark(i))
    requires d == s.handles[s.phase.workers[i].handle].target && s.data[d].mark != s.epoch
    ensures Core(WorkerApply(s, SwapMark(i))) && Marks(s, WorkerApply(s, SwapMark(i)), i, d)
  {
    var s' := WorkerApply(s, SwapMark(i));
    UnmarkedIsLocked(s, i);
    MarksShape(s, s', i, d);
    MarksQueue(s, s', i, d);
    MarksScan(s, s', i, d);
    hide Shape, Safe, Post, PendingInv, ScanInv;
  }

  /** A worker never leaves the closed set. */
  lemma WorkerMisses(s: State, e: WorkerStep, S: set<DataId>, t: DataId)
    requires Core(s) && WorkerEnabled(s, e) && Missed(s, S, t)
    ensures Core(WorkerApply(s, e)) && Missed(WorkerApply(s, e), S, t)
  {
    hide DatumInv, MarkInv, StampInv, Safe, Post;
    var s' := WorkerApply(s, e);
    if e.SwapMark? && s.data[s.handles[s.phase.workers[e.i].handle].target].mark != s.epoch {
      var d := s.handles[s.phase.workers[e.i].handle].target;
      MarkCore(s, e.i, d);
      MarksPending(s, s', e.i, d);
      PendingSplit(s, e.i, s.phase.workers[e.i].handle);
      MarkClosed(s, s', e.i, d, S);
    } else {
      SimpleCore(s, e);
      MoveClosed(s, s', S);
    }
    hide Core, CoverClosed, WorkerEnabled, WorkerApply;
  }

  lemma WorkerMild(s: State, e: WorkerStep)
    requires WorkerEnabled(s, e)
    ensures Mild(s, WorkerApply(s, e))
  {
  }

  lemma MoveClosed(s: State, s': State, S: set<DataId>)
    requires WorkerMove(s, s') && CoverClosed(s, S)
    ensures CoverClosed(s', S)
  {
  }

  lemma MarkClosed(s: State, s': State, i: nat, d: DataId, S: set<DataId>)
    requires Marks(s, s', i, d) && CoverClosed(s, S)
    requires Pending(s, s.phase.workers[i].handle)
    requires forall h | Pending(s', h) :: Pending(s, h) || h in ReportedIn(s, d)
    ensures CoverClosed(s', S)
  {
    hide WorkerApply;
  }

  lemma MarkEndStep(s: State, S: set<DataId>, t: DataId)
    requires CollectorEnabled(s, MarkEnd) && Missed(s, S, t)
    ensures Enabled(s, ByCollector(MarkEnd))
    ensures var s' := Apply(s, ByCollector(MarkEnd)); s' == s.(phase := Release) && Unkept(s', t) && Mild(s, s')
  {
  }

  lemma WorkerIsStep(s: State, w: WorkerStep)
    requires WorkerEnabled(s, w)
    ensures Enabled(s, ByWorker(w)) && Apply(s, ByWorker(w)) == WorkerApply(s, w) && DropTimely(s, ByWorker(w))
    ensures WorkerApply(s, w).phase.Mark? && |WorkerApply(s, w).phase.workers| == |s.phase.workers|
  {
  }

  lemma {:induction false} FinishMark(s: State, S: set<DataId>, t: DataId) returns (es: seq<Step>, s': State)
    requires Core(s) && s.phase.Mark? && s.phase.workers != [] && Missed(s, S, t)
    ensures Leads(s, es, s') && Lost(s, s', t)
    decreases Remaining(s)
  {
    hide Core, WorkerEnabled, WorkerApply, Enabled, Apply, Mild, Missed;
    var rest, e, s1;
    if CollectorEnabled(s, MarkEnd) {
      MarkEndStep(s, S, t);
      e, s1 := ByCollector(MarkEnd), s.(phase := Release);
      rest, s' := FinishRelease(s1, t);
    } else {
      var w := MarkingCanGoOn(s);
      WorkerIsStep(s, w);
      WorkerAdvances(s, w);
      WorkerMisses(s, w, S, t);
      WorkerMild(s, w);
      e, s1 := ByWorker(w), WorkerApply(s, w);
      rest, s' := FinishMark(s1, S, t);
    }
    LeadsCons(s, e, rest, s');
    LostLater(s, s1, s', t);
    es := [e] + rest;
  }

  function ToSee(s: State): set<HandleId>
    requires s.phase.HandlePass?
  {
    set h | h in s.phase.todo && Registered(s, h)
  }

  lemma SeeCore(s: State, h: HandleId, S: set<DataId>)
    requires Core(s) && s.phase.HandlePass? && h in ToSee(s) && CoverClosed(s, S)
    ensures Enabled(s, ByCollector(SeeHandle(h)))
    ensures var s' := Apply(s, ByCollector(SeeHandle(h)));
            && Core(s') && CoverClosed(s', S) && s'.phase.HandlePass? && ToSee(s') == ToSee(s) - {h}
            && s' == s.(phase := s'.phase)
  {
    hide Shape, Safe, Post;
    var s' := Apply(s, ByCollector(SeeHandle(h)));
    SeePending(s, s', h);
    SeeShape(s, s', h);
    hide Enabled, Apply, Shape, Safe, Post;
    assert forall g | Pending(s', g) :: Pending(s, g);
    assert forall d :: Doomed(s', d) <==> Doomed(s, d);
  }

  lemma PassEndCore(s: State, S: set<DataId>)
    requires Core(s) && s.phase.HandlePass? && ToSee(s) == {} && CoverClosed(s, S)
    ensures Enabled(s, ByCollector(HandlePassEnd(1)))
    ensures var s' := Apply(s, ByCollector(HandlePassEnd(1)));
            && Core(s') && CoverClosed(s', S) && s'.phase.Mark? && s'.phase.workers != []
            && s' == s.(phase := s'.phase)
  {
    hide Shape, Safe, Post;
    assert forall h | h in s.phase.todo && Registered(s, h) :: h in ToSee(s);
    var s' := CollectorApply(s, HandlePassEnd(1));
    HandlePassEndShape(s, s', 1);
    assert forall d :: Doomed(s', d) <==> Doomed(s, d);
  }

  lemma {:induction false} FinishPass(s: State, S: set<DataId>, t: DataId) returns (es: seq<Step>, s': State)
    requires Core(s) && s.phase.HandlePass? && Missed(s, S, t)
    ensures Leads(s, es, s') && Lost(s, s', t)
    decreases |ToSee(s)|
  {
    hide Core, Enabled, Apply, CoverClosed;
    var rest, e;
    if h :| h in ToSee(s) {
      SeeCore(s, h, S);
      e := ByCollector(SeeHandle(h));
      rest, s' := FinishPass(Apply(s, e), S, t);
    } else {
      PassEndCore(s, S);
      e := ByCollector(HandlePassEnd(1));
      rest, s' := FinishMark(Apply(s, e), S, t);
    }
    LeadsCons(s, e, rest, s');
    LostLater(s, Apply(s, e), s', t);
    es := [e] + rest;
  }

  // ---- the exact condition

  /** In every state that can follow, no registered handle dangles. */
  ghost predicate AlwaysSound(s: State) {
    forall es, s', k | Leads(s, es, s') && Registered(s', k) :: SoundPointer(s', k)
  }

  lemma RedundantIsSound(s: State, h: HandleId)
    requires Inv(s) && Unseen(s, h) && Redundant(s, h)
    ensures AlwaysSound(SetOwner(s, h, Gone))
  {
    var s2 := SetOwner(s, h, Gone);
    LateDropInv(s, h);
    forall es, s', k | Leads(s2, es, s') && Registered(s', k) ensures SoundPointer(s', k) {
      LeadsInv(s2, es, s');
      AllSound(s', k);
    }
  }

  /** The owner of an unstamped pointer in the handle pass is not going to be swept. */
  lemma OwnerIsKept(s: State, k: HandleId)
    requires Inv(s) && s.phase.HandlePass? && Registered(s, k) && s.handles[k].stamp != s.epoch
    ensures var o := s.handles[k].owner;
            o.Inside? && o.reported ==> Kept(s, o.data) && !IsSwept(s, o.data)
  {
    NothingSwept(s);
    var o := s.handles[k].owner;
    if o.Inside? && o.reported {
      assert DatumOk(s, s.data[o.data]);
      assert s.data[o.data].status == Tracked ==> MarkOk(s, o.data, s.data[o.data]);
    }
  }

  lemma NothingSwept(s: State)
    requires Inv(s) && s.phase.HandlePass?
    ensures forall d | d in s.data :: s.data[d].status != Swept
  {
    assert forall d | d in s.data :: !Outstanding(s, d);
  }

  /** Dropping `h` loses whatever is not covered without it, with every handle to it still
      where it was. */
  lemma UncoveredIsLost(s: State, h: HandleId, t: DataId) returns (es: seq<Step>, s': State)
    requires Inv(s) && Unseen(s, h) && t in s.data && !Doomed(s, t)
    requires s.data[t].status != Building && s.data[t].status != Ready
    requires !Covered(SetOwner(s, h, Gone), t)
    ensures Leads(SetOwner(s, h, Gone), es, s') && Lost(SetOwner(s, h, Gone), s', t)
  {
    hide Inv, Core;
    LateDropCore(s, h);
    var s2 := SetOwner(s, h, Gone);
    var S :| CoverClosed(s2, S) && t !in S;
    es, s' := FinishPass(s2, S, t);
  }

  lemma UncoveredIsTracked(s: State, h: HandleId, k: HandleId)
    requires Inv(s) && Unseen(s, h) && Registered(s, k)
    requires !Covered(SetOwner(s, h, Gone), s.handles[k].target)
    ensures var t := s.handles[k].target; t in s.data && !Doomed(s, t) && s.data[t].status == Tracked
  {
    NothingDoomed(s, k);
    var t := s.handles[k].target;
    assert DatumOk(s, s.data[t]);
    var S :| CoverClosed(SetOwner(s, h, Gone), S) && t !in S;
  }

  lemma NeededBreaks(s: State, h: HandleId, k: HandleId) returns (es: seq<Step>, s': State)
    requires Inv(s) && Unseen(s, h) && k != h && Registered(s, k) && s.handles[k].stamp != s.epoch
    requires !Covered(SetOwner(s, h, Gone), s.handles[k].target)
    ensures Leads(SetOwner(s, h, Gone), es, s') && Lost(SetOwner(s, h, Gone), s', s.handles[k].target)
    ensures Registered(s', k) && s'.handles[k] == s.handles[k] && !SoundPointer(s', k)
  {
    hide Inv, Covered;
    UncoveredIsTracked(s, h, k);
    OwnerIsKept(s, k);
    es, s' := UncoveredIsLost(s, h, s.handles[k].target);
    hide Leads, Outstanding;
    var o := s.handles[k].owner;
    assert o.Inside? && o.reported ==> Kept(SetOwner(s, h, Gone), o.data);
  }

  /** The drop of a handle that the pass has not seen leaves no dangling handle, whatever
      happens next, exactly when everything that other unstamped handles point to is
      covered without it. */
  lemma UntimelyDropExact(s: State, h: HandleId)
    requires Inv(s) && Unseen(s, h)
    ensures Enabled(s, ByProgram(Drop(h))) && Apply(s, ByProgram(Drop(h))) == SetOwner(s, h, Gone)
    ensures AlwaysSound(SetOwner(s, h, Gone)) <==> Redundant(s, h)
  {
    hide Inv;
    if Redundant(s, h) {
      RedundantIsSound(s, h);
    } else {
      var k :|
        && k != h && Registered(s, k) && s.handles[k].stamp != s.epoch
        && !Covered(SetOwner(s, h, Gone), s.handles[k].target);
      var es, s' := NeededBreaks(s, h, k);
    }
  }

  /** The condition is the part of the invariant that says what the collection covers. */
  lemma RedundantIsCoverage(s: State, h: HandleId)
    requires Inv(s) && Unseen(s, h)
    ensures Redundant(s, h) <==> CoverInv(SetOwner(s, h, Gone))
  {
    hide DatumInv, MarkInv, Safe, Post, PendingInv, ScanInv;
    var s' := SetOwner(s, h, Gone);
    if Redundant(s, h) { LateCover(s, h); }
    if CoverInv(s') {
      forall k, S | k != h && Registered(s, k) && s.handles[k].stamp != s.epoch && CoverClosed(s', S)
        ensures s.handles[k].target in S
      {
        assert Registered(s', k) && s'.handles[k] == s.handles[k];
      }
    }
  }

  // ---- what the program notices of it

  /** The program holds `k`, and what it points at has been swept. */
  ghost predicate Dangling(s: State, t: DataId, k: HandleId) {
    && IsSwept(s, t)
    && k in s.handles && s.handles[k].owner == Heap.Program && s.handles[k].target == t
  }

  lemma HeldBreaks(s: State, h: HandleId, k: HandleId) returns (es: seq<Step>, s': State)
    requires Inv(s) && Unseen(s, h) && k != h && k in s.handles && s.handles[k].owner == Heap.Program
    requires !Covered(SetOwner(s, h, Gone), s.handles[k].target)
    ensures Leads(SetOwner(s, h, Gone), es, s') && Dangling(s', s.handles[k].target, k)
  {
    hide Covered, Leads;
    assert s.handles[k].stamp != s.epoch;
    es, s' := NeededBreaks(s, h, k);
    hide *;
  }

  /** Every state that can follow keeps what the program reaches. */
  ghost predicate AlwaysSafe(s: State) {
    forall es, s', d | Leads(s, es, s') && Live(s', d) :: Intact(s', d)
  }

  lemma DanglingIsUnsafe(s: State, es: seq<Step>, s': State, t: DataId, k: HandleId)
    requires Leads(s, es, s') && Dangling(s', t, k)
    ensures !AlwaysSafe(s)
  {
    assert Live(s', t) by {
      forall S | LiveClosed(s', S) ensures t in S { assert HeldBy(s', k, S); }
    }
    assert !Intact(s', t);
  }

  lemma CloneInv(s: State, g: HandleId, k: HandleId)
    requires Inv(s) && s.phase.HandlePass? && k !in s.handles && ProgramEnabled(s, Clone(g, k))
    ensures Inv(AddHandle(s, k, s.handles[g].target, false))
  {
    ProgramStepInv(s, Clone(g, k));
  }

  lemma CoveredIsSafe(s: State, h: HandleId, k: HandleId)
    requires Inv(s) && Unseen(s, h) && !s.handles[h].dynamic && k !in s.handles
    requires Covered(AfterSwap(s, h, k), s.handles[h].target)
    ensures AlwaysSafe(AfterSwap(s, h, k))
  {
    hide Covered, Redundant;
    var s1 := AddHandle(s, k, s.handles[h].target, false);
    SwapSteps(s, h, k);
    CloneInv(s, h, k);
    CoveredIsRedundant(s1, h);
    LateDropInv(s1, h);
    var s2 := AfterSwap(s, h, k);
    forall es, s', d | Leads(s2, es, s') && Live(s', d) ensures Intact(s', d) {
      LeadsInv(s2, es, s');
      LiveNotDoomed(s', d);
    }
  }

  lemma UncoveredBreaks(s: State, h: HandleId, k: HandleId) returns (es: seq<Step>, s': State)
    requires Inv(s) && Unseen(s, h) && !s.handles[h].dynamic && k !in s.handles
    requires !Covered(AfterSwap(s, h, k), s.handles[h].target)
    ensures Leads(AfterSwap(s, h, k), es, s') && Dangling(s', s.handles[h].target, k)
  {
    hide Inv, Covered;
    var s1 := AddHandle(s, k, s.handles[h].target, false);
    SwapSteps(s, h, k);
    CloneInv(s, h, k);
    es, s' := HeldBreaks(s1, h, k);
  }

  /** Cloning an unseen pointer and dropping the original is harmless to the program,
      whatever happens next, exactly when its target is covered without it. */
  lemma CloneThenDropExact(s: State, h: HandleId, k: HandleId)
    requires Inv(s) && Unseen(s, h) && !s.handles[h].dynamic && k !in s.handles
    ensures AlwaysSafe(AfterSwap(s, h, k)) <==> Covered(AfterSwap(s, h, k), s.handles[h].target)
  {
    var s2 := AfterSwap(s, h, k);
    hide Inv, Covered, AlwaysSafe;
    if Covered(s2, s.handles[h].target) {
      CoveredIsSafe(s, h, k);
    } else {
      var es, s' := UncoveredBreaks(s, h, k);
      DanglingIsUnsafe(s2, es, s', s.handles[h].target, k);
    }
  }

  /** Walking down a list by `cur = cur.next.clone()`: the program clones `g` out of the
      data that `h` points to, and drops `h`. */
  function AfterWalk(s: State, h: HandleId, g: HandleId, k: HandleId): State
    requires h in s.handles && g in s.handles && k !in s.handles
  {
    SetOwner(AddHandle(s, k, s.handles[g].target, false), h, Gone)
  }

  lemma WalkBreaks(s: State, h: HandleId, g: HandleId, k: HandleId) returns (es: seq<Step>, s': State)
    requires Inv(s) && Unseen(s, h) && k !in s.handles
    requires g in s.handles && !s.handles[g].dynamic
    requires s.handles[g].owner.Inside? && s.handles[g].owner.data == s.handles[h].target
    requires !Covered(AfterWalk(s, h, g, k), s.handles[g].target)
    ensures ProgramEnabled(s, Clone(g, k))
    ensures Leads(AfterWalk(s, h, g, k), es, s') && Dangling(s', s.handles[g].target, k)
  {
    hide Inv, Covered;
    var s1 := AddHandle(s, k, s.handles[g].target, false);
    assert LiveOwner(s, g) by {
      forall S | LiveClosed(s, S) ensures s.handles[h].target in S { assert HeldBy(s, h, S); }
    }
    CloneInv(s, g, k);
    es, s' := HeldBreaks(s1, h, k);
  }
}
