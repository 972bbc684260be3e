// The program's steps keep the invariant.
module ProgramProofs {
  import opened Basics
  import opened Heap
  import opened Steps
  import opened Invariant

  /** `t` may be given a new handle: it is not doomed, and covered while that matters. */
  ghost predicate Referable(s: State, t: DataId) {
    && t in s.data && !Doomed(s, t)
    && (s.phase.HandlePass? || s.phase.Mark? ==> forall S | CoverClosed(s, S) :: t in S)
  }

  lemma LiveReferable(s: State, d: DataId)
    requires Inv(s) && Live(s, d)
    ensures Referable(s, d)
  {
    LiveNotDoomed(s, d);
    if s.phase.HandlePass? || s.phase.Mark? {
      forall S | CoverClosed(s, S) ensures d in S { LiveCovered(s, d, S); }
    }
  }

  lemma TargetLive(s: State, h: HandleId)
    requires HandleInv(s) && LiveOwner(s, h)
    ensures Live(s, s.handles[h].target)
  {
  }

  // ---- the collector's view of a step of the program

  /** One allocation: its mark and its exclusive lock stay; it may become written, and
      then tracked. */
  predicate DatumStep(s: State, m: Datum, m': Datum) {
    && m'.mark == m.mark
    && (m'.lock == Exclusive <==> m.lock == Exclusive)
    && (|| m'.status == m.status
        || (m.status == Building && m'.status == Ready)
        || (m.status == Ready && m'.status == Tracked))
    && (m.status == Swept || m.status == Freed ==> m' == m)
    && DatumOk(s, m')
  }

  /** One handle: its stamp stays; it may change hands or go away, but not from or to
      the inside of a locked allocation; an atomic cell may get a new target while no
      collection runs. */
  ghost predicate HandleStep(s: State, s': State, h: HandleId)
    requires h in s.handles && h in s'.handles
  {
    var o, o' := s.handles[h].owner, s'.handles[h].owner;
    && s'.handles[h].stamp == s.handles[h].stamp
    && (s'.handles[h].target != s.handles[h].target ==>
          s.phase.Quiet? && s'.handles[h].target in s.data && !Doomed(s, s'.handles[h].target))
    && (o' != o ==>
          && !LockedIn(s, o) && !LockedIn(s', o')
          && OwnerOk(s', o')
          && (o' == Gone || (o != Gone && !Doomed(s, s.handles[h].target))))
  }

  /** Nothing that the collector has read or will rely on changes; new allocations are
      unmarked; new handles point at things already covered. */
  ghost predicate Legal(s: State, s': State) {
    && s'.epoch == s.epoch && s'.phase == s.phase
    && (forall d | d in s.data :: d in s'.data && DatumStep(s, s.data[d], s'.data[d]))
    && (forall d | d in s'.data && d !in s.data ::
          && s'.data[d].mark == 0 && s'.data[d].lock == Shared(0)
          && s'.data[d].status in {Building, Ready} && !s'.data[d].deallocated)
    && (forall h | h in s.handles :: h in s'.handles && HandleStep(s, s', h))
    && (forall h | h in s'.handles && h !in s.handles ::
          && s'.handles[h].stamp == 0 && s'.handles[h].owner == Heap.Program
          && s'.handles[h].target in s'.data
          && (s'.handles[h].target in s.data ==> Referable(s, s'.handles[h].target)))
    && (s'.guards != s.guards ==>
          && s.phase.Quiet?
          && forall t | t in s'.guards && s'.guards[t].Some? ::
            s'.guards[t].value in s.data && !Doomed(s, s'.guards[t].value))
  }

  /** ... and no handle goes that the handle pass is still to see. */
  ghost predicate Undisturbed(s: State, s': State) {
    && Legal(s, s')
    && (s.phase.HandlePass? ==> forall h | h in s.handles && h in s.phase.todo && Registered(s, h) :: Registered(s', h))
  }

  lemma SameDoomed(s: State, s': State)
    requires Shape(s) && Legal(s, s')
    ensures forall d | d in s.data :: Doomed(s', d) <==> Doomed(s, d)
    ensures forall d | d !in s.data :: !Doomed(s', d)
    ensures forall h | h in s.handles :: LockedIn(s', s'.handles[h].owner) <==> LockedIn(s, s.handles[h].owner)
  {
  }

  lemma HandlesKept(s: State, s': State)
    requires Shape(s) && Legal(s, s')
    ensures HandleInv(s')
  {
    hide DatumInv;
    hide Referable, MarkInv, StampInv;
    SameDoomed(s, s');
    forall h | h in s.handles ensures s'.handles[h].target in s'.data { assert HandleStep(s, s', h); }
  }

  lemma StampsKept(s: State, s': State)
    requires Shape(s) && Legal(s, s')
    ensures StampInv(s')
  {
    hide Referable, DatumInv, MarkInv;
    SameDoomed(s, s');
    forall h | h in s.handles ensures s'.handles[h].stamp == s.handles[h].stamp { assert HandleStep(s, s', h); }
  }

  lemma DataKept(s: State, s': State)
    requires Shape(s) && Legal(s, s')
    ensures DatumInv(s')
  {
    hide HandleInv, MarkInv, StampInv, Referable, HandleStep;
    assert forall d | d in s.data :: DatumStep(s, s.data[d], s'.data[d]);
  }

  lemma MarksKept(s: State, s': State)
    requires Shape(s) && Legal(s, s')
    ensures MarkInv(s')
  {
    hide HandleInv, StampInv, Referable, HandleStep;
    assert forall d | d in s.data :: DatumStep(s, s.data[d], s'.data[d]);
  }

  lemma ShapeKept(s: State, s': State)
    requires Shape(s) && Legal(s, s')
    ensures Shape(s')
  {
    hide Legal, HandleInv, DatumInv, MarkInv, StampInv;
    HandlesKept(s, s');
    StampsKept(s, s');
    DataKept(s, s');
    MarksKept(s, s');
  }

  predicate SamePost(s: State, s': State) {
    s'.mail == s.mail && s'.work == s.work && s'.acked == s.acked && s'.tickets == s.tickets
  }

  lemma MailKept(s: State, s': State)
    requires MailInv(s) && SamePost(s, s')
    requires s'.phase == s.phase || !s'.phase.Syncing?
    requires Frozen(s') || s'.phase.Release? || s'.phase.Sweep? ==> NoBatch(s)
    ensures MailInv(s')
  {
  }

  lemma OutstandingKept(s: State, s': State)
    requires SamePost(s, s')
    requires s'.phase.Sweep? == s.phase.Sweep?
    requires s'.phase.Sweep? ==> s'.phase.batch == s.phase.batch
    ensures forall d :: Outstanding(s', d) <==> Outstanding(s, d)
  {
  }

  lemma BatchKept(s: State, s': State)
    requires Shape(s) && BatchInv(s) && Legal(s, s') && SamePost(s, s')
    requires forall d :: Outstanding(s', d) <==> Outstanding(s, d)
    ensures BatchInv(s')
  {
    assert forall d | d in s.data :: DatumStep(s, s.data[d], s'.data[d]);
    assert forall d | IsSwept(s, d) :: IsSwept(s', d);
  }

  lemma PostKept(s: State, s': State)
    requires Shape(s) && Post(s) && Legal(s, s') && SamePost(s, s')
    ensures Post(s')
    ensures forall d :: Outstanding(s', d) <==> Outstanding(s, d)
  {
    MailKept(s, s');
    OutstandingKept(s, s');
    BatchKept(s, s');
  }

  lemma SafeKept(s: State, s': State)
    requires Shape(s) && Safe(s) && Legal(s, s') && HandleInv(s')
    requires forall d | Outstanding(s, d) :: Outstanding(s', d)
    ensures Safe(s')
  {
    SameDoomed(s, s');
    forall h | h in s'.handles ensures DangleOk(s', h) {
      if h in s.handles {
        assert HandleStep(s, s', h) && DangleOk(s, h);
      }
    }
  }

  /** Between the handle pass and the end of marking only the phase has to do with the
      progress of the tracing. */
  lemma FrozenOn(s: State, s': State)
    requires Shape(s) && Safe(s) && Post(s) && s' == s.(phase := s'.phase)
    requires s.phase.HandlePass? || s.phase.Mark?
    requires s'.phase.Mark? || (s.phase.HandlePass? && s'.phase.HandlePass?)
    ensures Shape(s') && Safe(s') && Post(s')
  {
    assert Shape(s') by { hide Safe, Post; }
    OutstandingKept(s, s');
    assert Post(s') by { hide Shape, Safe; MailKept(s, s'); }
    assert Safe(s') by { hide Post; assert forall d :: Doomed(s', d) <==> Doomed(s, d); }
    hide Shape, Safe, Post;
  }

  lemma SamePending(s: State, s': State)
    requires Inv(s) && Undisturbed(s, s')
    ensures forall h :: Pending(s', h) <==> Pending(s, h)
  {
  }

  lemma SameCover(s: State, s': State)
    requires Inv(s) && Undisturbed(s, s')
    ensures forall S | CoverClosed(s', S) :: CoverClosed(s, S)
  {
    hide Safe, Post, MarkInv, StampInv, Referable;
    SamePending(s, s');
    forall S | CoverClosed(s', S) ensures CoverClosed(s, S) {
      forall d | d in s.data && (s.data[d].mark == 0 || s.data[d].mark == s.epoch) ensures d in S {
        assert d in s'.data;
      }
    }
  }

  lemma SameSeed(s: State, s': State)
    requires Inv(s) && Undisturbed(s, s') && s.phase.Mark? && HandleInv(s')
    ensures forall S | SeedClosed(s', S) :: SeedClosed(s, S)
    ensures MarkedData(s') == MarkedData(s)
  {
    hide Safe, Post, Tracing, MarkInv, StampInv, DatumInv, DatumOk, Referable;
    forall S | SeedClosed(s', S) ensures SeedClosed(s, S) {
      forall h | h in s.handles ensures HandleStep(s, s', h) {}
    }
  }

  lemma CoverUndisturbed(s: State, s': State)
    requires Inv(s) && Undisturbed(s, s') && HandleInv(s')
    ensures CoverInv(s') && PendingInv(s')
  {
    SamePending(s, s');
    SameCover(s, s');
    if s.phase.HandlePass? || s.phase.Mark? {
      forall S, h | CoverClosed(s', S) && Registered(s', h) && s'.handles[h].stamp != s'.epoch
        ensures s'.handles[h].target in S
      {
        if h in s.handles {
          assert HandleStep(s, s', h);
        }
      }
    }
  }

  lemma MarkUndisturbed(s: State, s': State)
    requires Inv(s) && Undisturbed(s, s') && HandleInv(s') && s.phase.Mark?
    ensures TriColour(s') && ScanInv(s')
  {
    SamePending(s, s');
    forall i | 0 <= i < |s.phase.workers| ensures ScanOk(s', s.phase.workers[i]) {
      var w := s.phase.workers[i];
      assert ScanOk(s, w);
      if w.Loaded? { assert HandleStep(s, s', w.handle); }
    }
  }

  lemma SeedUndisturbed(s: State, s': State)
    requires Inv(s) && Undisturbed(s, s') && HandleInv(s') && s.phase.Mark?
    ensures SeedInv(s')
  {
    SamePending(s, s');
    SameSeed(s, s');
  }

  lemma TracingUndisturbed(s: State, s': State)
    requires Inv(s) && Undisturbed(s, s') && HandleInv(s')
    ensures Tracing(s')
  {
    CoverUndisturbed(s, s');
    if s.phase.Mark? {
      MarkUndisturbed(s, s');
      SeedUndisturbed(s, s');
    }
  }

  /** A step that leaves the collector undisturbed keeps the invariant. */
  lemma UndisturbedInv(s: State, s': State)
    requires Inv(s) && Undisturbed(s, s') && SamePost(s, s')
    ensures Inv(s')
  {
    ShapeKept(s, s');
    PostKept(s, s');
    SafeKept(s, s');
    TracingUndisturbed(s, s');
  }

  // ---- every step of the program

  lemma TargetReferable(s: State, h: HandleId)
    requires Inv(s) && LiveOwner(s, h)
    ensures Referable(s, s.handles[h].target)
  {
    TargetLive(s, h);
    LiveReferable(s, s.handles[h].target);
  }

  lemma AddHandleUndisturbed(s: State, k: HandleId, t: DataId, dynamic: bool)
    requires Shape(s) && k !in s.handles && Referable(s, t)
    ensures Undisturbed(s, AddHandle(s, k, t, dynamic))
  {
  }

  lemma ReownUndisturbed(s: State, h: HandleId, o: Owner)
    requires Shape(s) && h in s.handles
    requires !LockedIn(s, s.handles[h].owner) && !LockedIn(s, o)
    requires OwnerOk(s, o)
    requires o == Gone || (s.handles[h].owner != Gone && !Doomed(s, s.handles[h].target))
    requires s.phase.HandlePass? && o == Gone ==> h !in s.phase.todo
    ensures Undisturbed(s, SetOwner(s, h, o))
  {
    hide MarkInv, StampInv, Referable;
  }

  lemma DatumUndisturbed(s: State, d: DataId, m: Datum)
    requires Shape(s) && d in s.data && DatumStep(s, s.data[d], m)
    ensures Undisturbed(s, s.(data := s.data[d := m]))
  {
  }

  lemma DataStays(s: State)
    requires DatumInv(s)
    ensures forall d | d in s.data :: DatumStep(s, s.data[d], s.data[d])
  {
  }

  lemma MovedTargets(s: State, moved: map<HandleId, bool>)
    requires HandleInv(s) && Safe(s) && CanMove(s, moved)
    ensures forall m | m in moved :: !Doomed(s, s.handles[m].target) && s.handles[m].owner == Heap.Program
  {
  }

  lemma MovedStep(s: State, s': State, moved: map<HandleId, bool>, d: DataId, h: HandleId)
    requires h in s.handles && h in s'.handles && d in s'.data
    requires s'.data[d].status == Ready && s'.data[d].lock.Shared?
    requires s'.handles[h] == if h in moved then s.handles[h].(owner := Inside(d, moved[h])) else s.handles[h]
    requires h in moved ==> s.handles[h].owner == Heap.Program && !Doomed(s, s.handles[h].target)
    ensures HandleStep(s, s', h)
  {
  }

  lemma NewUndisturbed(s: State, d: DataId, h: HandleId, moved: map<HandleId, bool>)
    requires Shape(s) && Safe(s) && d !in s.data && h !in s.handles && CanMove(s, moved)
    ensures var s1 := s.(data := s.data[d := Datum(0, Shared(0), Ready, false)]);
            Undisturbed(s, AddHandle(MoveAll(s1, moved, d), h, d, false))
  {
    hide MarkInv, StampInv, Safe, Referable, HandleStep, DatumInv, DatumStep, DatumOk;
    MovedTargets(s, moved);
    DataStays(s);
    var s' := AddHandle(MoveAll(s.(data := s.data[d := Datum(0, Shared(0), Ready, false)]), moved, d), h, d, false);
    forall g | g in s.handles ensures HandleStep(s, s', g) { MovedStep(s, s', moved, d, g); }
  }

  lemma WriteUndisturbed(s: State, d: DataId, moved: map<HandleId, bool>)
    requires Shape(s) && Safe(s) && CanMove(s, moved)
    requires d in s.data && s.data[d].status == Building && !s.data[d].deallocated
    ensures Undisturbed(s, SetStatus(MoveAll(s, moved, d), d, Ready))
  {
    hide MarkInv, StampInv, Safe, Referable, HandleStep;
    MovedTargets(s, moved);
    var s' := SetStatus(MoveAll(s, moved, d), d, Ready);
    forall g | g in s.handles ensures HandleStep(s, s', g) { MovedStep(s, s', moved, d, g); }
  }

  lemma BuildUndisturbed(s: State, e: ProgramStep)
    requires Shape(s) && ProgramEnabled(s, e)
    requires e.NewUninit? || e.Flag? || e.Unflag? || e.Track? || e.CountUp?
    ensures Undisturbed(s, ProgramApply(s, e))
  {
    hide HandleInv, MarkInv, StampInv, Referable, LockedIn;
    if e.CountUp? {
      NothingDisturbed(s);
      CountingUndisturbed(s, s, s.counting - {e.d});
    } else if e.Track? {
      var s1 := SetStatus(s, e.d, Tracked);
      DatumUndisturbed(s, e.d, s1.data[e.d]);
      CountingUndisturbed(s, s1, s.counting[e.d := e.h]);
    } else if !e.NewUninit? {
      DatumUndisturbed(s, e.d, ProgramApply(s, e).data[e.d]);
    }
  }

  /** The collector does not look at what is being counted. */
  lemma CountingUndisturbed(s: State, s': State, counting: map<DataId, HandleId>)
    requires Undisturbed(s, s')
    ensures Undisturbed(s, s'.(counting := counting))
  {
  }

  lemma GuardsUndisturbed(s: State, guards: map<ThreadId, Option<DataId>>)
    requires Shape(s) && s.phase.Quiet?
    requires forall t | t in guards && guards[t].Some? :: guards[t].value in s.data && !Doomed(s, guards[t].value)
    ensures Undisturbed(s, s.(guards := guards))
  {
  }

  lemma GuardStepUndisturbed(s: State, e: ProgramStep)
    requires Inv(s) && ProgramEnabled(s, e)
    requires e.AtomicLoad? || e.GuardTake? || e.GuardDrop?
    ensures Undisturbed(s, ProgramApply(s, e))
  {
    hide Shape, Tracing, Post, Undisturbed;
    if e.AtomicLoad? { TargetReferable(s, e.h); }
    GuardsUndisturbed(s, ProgramApply(s, e).guards);
  }

  lemma RegisterUndisturbed(s: State, t: ThreadId, k: HandleId)
    requires Shape(s) && Safe(s) && ProgramEnabled(s, AtomicRegister(t, k))
    ensures Undisturbed(s, ProgramApply(s, AtomicRegister(t, k)))
  {
    hide MarkInv, StampInv, DangleInv;
  }

  lemma CellUndisturbed(s: State, h: HandleId, v: HandleId, guards: map<ThreadId, Option<DataId>>)
    requires Inv(s) && s.phase.Quiet? && h in s.handles && LiveOwner(s, v)
    requires forall t | t in guards && guards[t].Some? :: guards[t].value in s.data && !Doomed(s, guards[t].value)
    ensures Undisturbed(s, SetTarget(s, h, s.handles[v].target).(guards := guards))
  {
    TargetReferable(s, v);
    RetargetUndisturbed(s, h, s.handles[v].target, guards);
  }

  lemma RetargetUndisturbed(s: State, h: HandleId, d: DataId, guards: map<ThreadId, Option<DataId>>)
    requires Shape(s) && s.phase.Quiet? && h in s.handles && d in s.data && !Doomed(s, d)
    requires forall t | t in guards && guards[t].Some? :: guards[t].value in s.data && !Doomed(s, guards[t].value)
    ensures Undisturbed(s, SetTarget(s, h, d).(guards := guards))
  {
    hide MarkInv, StampInv, Referable;
  }

  lemma CellStepUndisturbed(s: State, e: ProgramStep)
    requires Inv(s) && ProgramEnabled(s, e)
    requires e.AtomicStore? || e.AtomicSwap? || e.AtomicCas?
    ensures Undisturbed(s, ProgramApply(s, e))
  {
    hide Shape, Post, Tracing, DangleInv, Undisturbed;
    match e
    case AtomicStore(t, h, v) => CellUndisturbed(s, h, v, s.guards);
    case AtomicSwap(t, h, v) =>
      TargetReferable(s, h);
      CellUndisturbed(s, h, v, s.guards[t := Some(s.handles[h].target)]);
    case AtomicCas(t, h, current, v) =>
      if s.handles[h].target == s.handles[current].target {
        CellUndisturbed(s, h, v, s.guards);
      } else {
        NothingDisturbed(s);
      }
  }

  lemma NothingDisturbed(s: State)
    requires Shape(s)
    ensures Undisturbed(s, s)
  {
  }

  lemma WarrantUndisturbed(s: State, e: ProgramStep)
    requires Inv(s) && ProgramEnabled(s, e) && (e.Get? || e.Put?)
    ensures Undisturbed(s, ProgramApply(s, e))
  {
    var d := if e.Get? then s.handles[e.h].target else e.d;
    if e.Get? { TargetReferable(s, e.h); }
    DatumUndisturbed(s, d, ProgramApply(s, e).data[d]);
  }

  lemma PointerUndisturbed(s: State, e: ProgramStep)
    requires Inv(s) && ProgramEnabled(s, e) && DropTimely(s, ByProgram(e))
    requires e.Clone? || e.AtomicNew? || e.Drop? || e.MoveIn? || e.MoveOut?
    ensures Undisturbed(s, ProgramApply(s, e))
  {
    hide Undisturbed, Tracing, Post, MarkInv, StampInv, GuardInv;
    assert DangleOk(s, e.h);
    match e
    case Clone(h, k) => TargetReferable(s, h); AddHandleUndisturbed(s, k, s.handles[h].target, false);
    case AtomicNew(h, k) => TargetReferable(s, h); AddHandleUndisturbed(s, k, s.handles[h].target, true);
    case Drop(h) => ReownUndisturbed(s, h, Gone);
    case MoveIn(h, d, reported) => ReownUndisturbed(s, h, Inside(d, reported));
    case MoveOut(h) => ReownUndisturbed(s, h, Heap.Program);
  }

  lemma ProgramUndisturbed(s: State, e: ProgramStep)
    requires Inv(s) && ProgramEnabled(s, e) && DropTimely(s, ByProgram(e)) && !e.UserSync?
    ensures Undisturbed(s, ProgramApply(s, e))
  {
    if e.New? {
      NewUndisturbed(s, e.d, e.h, e.moved);
    } else if e.WriteInit? {
      WriteUndisturbed(s, e.d, e.moved);
    } else if e.NewUninit? || e.Flag? || e.Unflag? || e.Track? || e.CountUp? {
      BuildUndisturbed(s, e);
    } else if e.Get? || e.Put? {
      WarrantUndisturbed(s, e);
    } else if e.AtomicStore? || e.AtomicSwap? || e.AtomicCas? {
      CellStepUndisturbed(s, e);
    } else if e.AtomicRegister? {
      RegisterUndisturbed(s, e.t, e.k);
    } else if e.AtomicLoad? || e.GuardTake? || e.GuardDrop? {
      GuardStepUndisturbed(s, e);
    } else {
      PointerUndisturbed(s, e);
    }
  }

  /** A step that touches nothing but the dropper's mailbox and work. */
  lemma MailUndisturbed(s: State, s': State)
    requires Shape(s)
    requires s' == s.(mail := s'.mail, work := s'.work, acked := s'.acked, tickets := s'.tickets)
    ensures Undisturbed(s, s') && Shape(s')
  {
    hide MarkInv, StampInv, Doomed, Referable, OwnerOk, LockedIn;
    assert Legal(s, s');
    ShapeKept(s, s');
  }

  lemma UserSyncInv(s: State)
    requires Inv(s)
    ensures Inv(ProgramApply(s, UserSync))
  {
    hide Tracing, Safe, Post, Legal, HandleInv, DatumInv, MarkInv, StampInv;
    var s' := ProgramApply(s, UserSync);
    PostSyncUp(s, s');
    MailUndisturbed(s, s');
    SafeKept(s, s');
    TracingUndisturbed(s, s');
  }

  /** One more sync-up request at the end of the mailbox. */
  lemma PostSyncUp(s: State, s': State)
    requires Post(s) && s' == s.(mail := s.mail + [SyncUp(s.tickets)], tickets := s.tickets + 1)
    ensures Post(s')
    ensures forall d :: Outstanding(s', d) <==> Outstanding(s, d)
  {
    hide MailInv, BatchInv, Outstanding;
    MailSyncUp(s, s');
    BatchSyncUp(s, s');
  }

  lemma MailSyncUp(s: State, s': State)
    requires MailInv(s) && s' == s.(mail := s.mail + [SyncUp(s.tickets)], tickets := s.tickets + 1)
    ensures MailInv(s')
  {
    hide AwaitsReply;
    assert forall i | 0 <= i < |s.mail| :: s'.mail[i] == s.mail[i];
    if s.phase.Syncing? && s.phase.ticket !in s.acked {
      AwaitsBehind(s, s', s.phase.ticket);
    }
  }

  lemma AwaitsBehind(s: State, s': State, ticket: nat)
    requires AwaitsReply(s, ticket) && s'.mail == s.mail + [SyncUp(s.tickets)]
    ensures AwaitsReply(s', ticket)
  {
    var i :| 0 <= i < |s.mail| && s.mail[i] == SyncUp(ticket) && forall j | i < j < |s.mail| :: s.mail[j].SyncUp?;
    assert s'.mail[i] == SyncUp(ticket);
  }

  lemma BatchSyncUp(s: State, s': State)
    requires BatchInv(s) && s' == s.(mail := s.mail + [SyncUp(s.tickets)], tickets := s.tickets + 1)
    ensures BatchInv(s')
    ensures forall d :: Outstanding(s', d) <==> Outstanding(s, d)
  {
    assert forall i | 0 <= i < |s.mail| :: s'.mail[i] == s.mail[i];
    forall d | Outstanding(s, d) ensures Outstanding(s', d) {
      if i :| 0 <= i < |s.mail| && s.mail[i].Batch? && d in s.mail[i].batch {
        assert s'.mail[i] == s.mail[i];
      }
    }
  }

  lemma ProgramSamePost(s: State, e: ProgramStep)
    requires ProgramEnabled(s, e) && !e.UserSync?
    ensures SamePost(s, ProgramApply(s, e))
  {
    hide LiveOwner;
  }

  /** Every step of the program keeps the invariant. */
  lemma ProgramStepInv(s: State, e: ProgramStep)
    requires Inv(s) && ProgramEnabled(s, e) && DropTimely(s, ByProgram(e))
    ensures Inv(ProgramApply(s, e))
  {
    hide Inv, Undisturbed, SamePost, ProgramEnabled, ProgramApply, DropTimely;
    if e.UserSync? {
      UserSyncInv(s);
    } else {
      ProgramUndisturbed(s, e);
      ProgramSamePost(s, e);
      UndisturbedInv(s, ProgramApply(s, e));
    }
  }
}
