// The collecting thread's steps keep the invariant.
module CollectorProofs {
  import opened Heap
  import opened Steps
  import opened Invariant
  import opened ProgramProofs
  import opened DropperProofs

  // ---- before the passes

  lemma BeginMail(s: State, s': State)
    requires MailInv(s) && CollectorEnabled(s, Begin) && s' == CollectorApply(s, Begin)
    ensures MailInv(s')
    ensures forall d :: Outstanding(s', d) <==> Outstanding(s, d)
  {
    var n := |s.mail|;
    assert forall i | 0 <= i < n :: s'.mail[i] == s.mail[i];
    assert s'.mail[n] == SyncUp(s.tickets);
    assert AwaitsReply(s', s.tickets);
    forall d | Outstanding(s, d) ensures Outstanding(s', d) {
      if i :| 0 <= i < n && s.mail[i].Batch? && d in s.mail[i].batch {
        assert s'.mail[i] == s.mail[i];
      }
    }
  }

  lemma BeginInv(s: State)
    requires Inv(s) && CollectorEnabled(s, Begin)
    ensures Inv(CollectorApply(s, Begin))
  {
    var s' := CollectorApply(s, Begin);
    BeginMail(s, s');
    assert Shape(s');
    SameDangle(s, s');
    BeginBatch(s, s');
    TracingIdle(s');
  }

  lemma BeginBatch(s: State, s': State)
    requires BatchInv(s) && CollectorEnabled(s, Begin) && s' == CollectorApply(s, Begin)
    requires forall d :: Outstanding(s', d) <==> Outstanding(s, d)
    ensures BatchInv(s')
  {
  }

  /** A step that dooms nothing and moves no pointer. */
  lemma SameDangle(s: State, s': State)
    requires HandleInv(s) && HandleInv(s') && Safe(s)
    requires s'.handles.Keys == s.handles.Keys
    requires forall h | h in s.handles ::
               s'.handles[h].owner == s.handles[h].owner && s'.handles[h].target == s.handles[h].target
    requires forall d :: Doomed(s', d) <==> Doomed(s, d)
    requires forall d | d in s.data ::
               && d in s'.data
               && (|| s'.data[d].status == s.data[d].status
                   || (s.data[d].status == Tracked && s'.data[d].status == Swept && Outstanding(s', d)))
    requires forall d | Outstanding(s, d) :: Outstanding(s', d)
    requires s'.guards == s.guards && (s'.guards == map[] || s'.phase == s.phase)
    ensures Safe(s')
  {
  }

  lemma SyncReturnInv(s: State)
    requires Inv(s) && CollectorEnabled(s, SyncReturn)
    ensures Inv(CollectorApply(s, SyncReturn))
  {
    var s' := CollectorApply(s, SyncReturn);
    assert Shape(s');
    OutstandingKept(s, s');
    MailKept(s, s');
    SameDangle(s, s');
    TracingIdle(s');
  }

  // ---- the data pass

  lemma NoteInv(s: State, d: DataId)
    requires Inv(s) && CollectorEnabled(s, Note(d))
    ensures Inv(CollectorApply(s, Note(d)))
  {
    hide Tracing, HandleInv, DatumInv, MarkInv, StampInv, MailInv, BatchInv, DangleInv;
    var s' := Noted(s, d);
    NoteShape(s, s', d);
    PassPost(s, s');
    SameDangle(s, s');
    TracingIdle(s');
  }

  /** One datum changes and keeps its status; the phase stays of the same kind. */
  predicate OneDatum(s: State, s': State, d: DataId) {
    && d in s.data && d in s'.data && s'.data == s.data[d := s'.data[d]] && s'.epoch == s.epoch
    && s'.data[d].status == s.data[d].status == Tracked
    && s.phase.DataPass? && s'.phase.DataPass?
    && s'.phase.dataTodo - {d} == s.phase.dataTodo - {d} && s'.phase.noted - {d} == s.phase.noted - {d}
    && s'.phase.noted <= s'.phase.dataTodo
    && DatumOk(s', s'.data[d]) && MarkOk(s', d, s'.data[d])
  }

  lemma OneDatumShape(s: State, s': State, d: DataId)
    requires DatumInv(s) && MarkInv(s) && OneDatum(s, s', d)
    ensures DatumInv(s') && MarkInv(s')
    ensures forall x :: Doomed(s', x) <==> Doomed(s, x)
  {
    forall x | x in s'.data && s'.data[x].status == Tracked ensures MarkOk(s', x, s'.data[x]) {
      if x != d {
        assert MarkOk(s, x, s.data[x]);
        assert x in s.phase.dataTodo - {d} <==> x in s.phase.dataTodo;
        assert x in s'.phase.dataTodo - {d} <==> x in s'.phase.dataTodo;
        assert x in s.phase.noted - {d} <==> x in s.phase.noted;
        assert x in s'.phase.noted - {d} <==> x in s'.phase.noted;
      }
    }
    assert TrackedData(s') == TrackedData(s);
    assert s'.phase.dataTodo <= TrackedData(s') by {
      forall x | x in s'.phase.dataTodo ensures x in TrackedData(s') {
        assert x == d || x in s'.phase.dataTodo - {d};
      }
    }
  }

  predicate NoteGuard(s: State, d: DataId) {
    && s.phase.DataPass? && d in s.data && s.data[d].status == Tracked && d !in s.phase.noted
    && (d in s.phase.dataTodo || s.data[d].mark == 0)
  }

  lemma NoteShape(s: State, s': State, d: DataId)
    requires Shape(s) && NoteGuard(s, d) && s' == Noted(s, d)
    ensures Shape(s')
    ensures forall x :: Doomed(s', x) <==> Doomed(s, x)
  {
    hide OneDatum, DatumInv, MarkInv;
    NoteChange(s, s', d);
    OneDatumShape(s, s', d);
  }

  lemma NoteChange(s: State, s': State, d: DataId)
    requires DatumInv(s) && MarkInv(s) && s.epoch >= 2 && NoteGuard(s, d) && s' == Noted(s, d)
    ensures OneDatum(s, s', d)
  {
    assert MarkOk(s, d, s.data[d]) && DatumOk(s, s.data[d]);
  }

  lemma PassPost(s: State, s': State)
    requires Post(s) && SamePost(s, s') && s.phase.DataPass? && s'.phase.DataPass?
    requires s'.data.Keys == s.data.Keys
    requires forall d | d in s.data ::
               s'.data[d].status == s.data[d].status && s'.data[d].deallocated == s.data[d].deallocated
    ensures Post(s')
    ensures forall d :: Outstanding(s', d) <==> Outstanding(s, d)
  {
  }

  /** The visit of an allocation that is in use marks it. */
  lemma MarkInUseShape(s: State, s': State, d: DataId)
    requires Shape(s) && s.phase.DataPass? && d in s.phase.noted && d in s.data && s' == Visited(s, d)
    requires s.data[d].lock != Shared(0)
    ensures Shape(s') && s'.handles == s.handles && SamePost(s, s')
    ensures forall x :: Doomed(s', x) <==> Doomed(s, x)
  {
    assert d in TrackedData(s);
    assert MarkOk(s, d, s.data[d]) && DatumOk(s, s.data[d]);
    assert OneDatum(s, s', d);
    OneDatumShape(s, s', d);
  }

  /** The visit of any other locks it and stamps what it reports. */
  lemma StampShape(s: State, s': State, d: DataId)
    requires Shape(s) && s.phase.DataPass? && d in s.phase.noted && d in s.data && s' == Visited(s, d)
    requires s.data[d].lock == Shared(0)
    ensures Shape(s') && SamePost(s, s')
    ensures forall x :: Doomed(s', x) <==> Doomed(s, x)
  {
    assert d in TrackedData(s);
    assert MarkOk(s, d, s.data[d]) && DatumOk(s, s.data[d]);
    assert OneDatum(s, s', d);
    OneDatumShape(s, s', d);
    StampHandles(s, s', d);
  }

  lemma StampHandles(s: State, s': State, d: DataId)
    requires HandleInv(s) && StampInv(s) && Frozen(s) && Frozen(s') && s'.epoch == s.epoch
    requires d in s.data && s.data[d].lock == Shared(0) && s'.data == s.data[d := s.data[d].(lock := Exclusive)]
    requires s'.handles == StampAll(s, d).handles
    ensures HandleInv(s') && StampInv(s')
  {
  }

  /** Neither kind of visit moves a pointer or changes a status. */
  lemma VisitFrame(s: State, d: DataId)
    requires s.phase.DataPass? && d in s.data
    ensures var s' := Visited(s, d);
            && s'.handles.Keys == s.handles.Keys && s'.guards == s.guards && s'.data.Keys == s.data.Keys
            && SamePost(s, s') && s'.phase.DataPass?
            && (forall h | h in s.handles ::
                  s'.handles[h].owner == s.handles[h].owner && s'.handles[h].target == s.handles[h].target)
            && (forall x | x in s.data ::
                  s'.data[x].status == s.data[x].status && s'.data[x].deallocated == s.data[x].deallocated)
  {
  }

  lemma LockDataInv(s: State, d: DataId)
    requires Inv(s) && CollectorEnabled(s, LockData(d))
    ensures Inv(CollectorApply(s, LockData(d)))
  {
    var s' := Visited(s, d);
    if s.data[d].lock == Shared(0) { StampShape(s, s', d); } else { MarkInUseShape(s, s', d); }
    VisitFrame(s, d);
    PassPost(s, s');
    assert s.guards == map[];
    SameDangle(s, s');
    TracingIdle(s');
  }

  // ---- the handle pass

  /** With no batch under way, nothing registered points at doomed data. */
  lemma NothingDoomed(s: State, h: HandleId)
    requires Shape(s) && Safe(s) && Post(s) && Frozen(s) && Registered(s, h)
    ensures !Doomed(s, s.handles[h].target)
  {
  }

  lemma DataPassEndInv(s: State)
    requires Inv(s) && CollectorEnabled(s, DataPassEnd)
    ensures Inv(CollectorApply(s, DataPassEnd))
  {
    var s' := CollectorApply(s, DataPassEnd);
    assert Shape(s') by { hide Safe, Post; }
    OutstandingKept(s, s');
    assert Post(s') by { hide Shape, Safe; MailKept(s, s'); }
    SameDangle(s, s');
    forall h | Pending(s', h) ensures !Doomed(s', s'.handles[h].target) {
      NothingDoomed(s', h);
    }
    assert CoverInv(s') by {
      forall S, h | CoverClosed(s', S) && Registered(s', h) && s'.handles[h].stamp != s'.epoch
        ensures s'.handles[h].target in S
      {
        assert Pending(s', h);
      }
    }
  }

  lemma SeePending(s: State, s': State, h: HandleId)
    requires CollectorEnabled(s, SeeHandle(h)) && s' == CollectorApply(s, SeeHandle(h))
    ensures forall g :: Pending(s', g) <==> Pending(s, g) || (g == h && s.handles[h].stamp != s.epoch)
  {
  }

  lemma SeeShape(s: State, s': State, h: HandleId)
    requires Shape(s) && Safe(s) && Post(s)
    requires CollectorEnabled(s, SeeHandle(h)) && s' == CollectorApply(s, SeeHandle(h))
    ensures Shape(s') && Safe(s') && Post(s')
    ensures s'.phase.HandlePass? && s' == s.(phase := s'.phase)
  {
    hide Shape, Safe, Post;
    FrozenOn(s, s');
  }

  /** What the pass has found of a root takes the place of the root still to be seen. */
  lemma SeeTracing(s: State, s': State, h: HandleId)
    requires HandleInv(s) && HandleInv(s') && Tracing(s)
    requires CollectorEnabled(s, SeeHandle(h)) && s' == CollectorApply(s, SeeHandle(h))
    requires !Doomed(s, s.handles[h].target)
    ensures Tracing(s')
  {
    SeePending(s, s', h);
    forall S | CoverClosed(s', S) ensures CoverClosed(s, S) {}
  }

  lemma SeeHandleInv(s: State, h: HandleId)
    requires Inv(s) && CollectorEnabled(s, SeeHandle(h))
    ensures Inv(CollectorApply(s, SeeHandle(h)))
  {
    var s' := CollectorApply(s, SeeHandle(h));
    NothingDoomed(s, h);
    SeeShape(s, s', h);
    SeeTracing(s, s', h);
    hide HandleInv, DatumInv, MarkInv, StampInv, Safe, Post, Tracing;
  }

  lemma HandlePassEndShape(s: State, s': State, n: nat)
    requires Shape(s) && Safe(s) && Post(s)
    requires CollectorEnabled(s, HandlePassEnd(n)) && s' == CollectorApply(s, HandlePassEnd(n))
    ensures Shape(s') && Safe(s') && Post(s')
    ensures forall h :: Pending(s', h) <==> Pending(s, h)
    ensures forall d | d in s.data && s.data[d].lock == Exclusive :: s.data[d].mark == s.epoch - 1
  {
    assert forall d | d in s.data :: DatumOk(s, s.data[d]);
    assert forall d | d in s.data && s.data[d].status == Tracked :: MarkOk(s, d, s.data[d]);
    hide Shape, Safe, Post;
    FrozenOn(s, s');
  }

  lemma HandlePassEndInv(s: State, n: nat)
    requires Inv(s) && CollectorEnabled(s, HandlePassEnd(n))
    ensures Inv(CollectorApply(s, HandlePassEnd(n)))
  {
    var s' := CollectorApply(s, HandlePassEnd(n));
    HandlePassEndShape(s, s', n);
    forall S | CoverClosed(s', S) ensures CoverClosed(s, S) {}
    assert TriColour(s');
    assert ScanInv(s');
    assert SeedInv(s') by {
      forall h | h in s'.phase.roots ensures h in s'.handles && Pending(s', h) {
        assert Pending(s, h);
      }
    }
  }

  // ---- the end of marking

  /** What is kept when the queue is empty and every worker rests. */
  ghost function KeptData(s: State): set<DataId> {
    set d | d in s.data && Kept(s, d)
  }

  lemma KeptIsClosed(s: State)
    requires Inv(s) && CollectorEnabled(s, MarkEnd)
    ensures CoverClosed(s, KeptData(s))
  {
  }

  lemma MarkEndSafe(s: State, s': State)
    requires Inv(s) && CollectorEnabled(s, MarkEnd) && s' == CollectorApply(s, MarkEnd) && HandleInv(s')
    ensures Safe(s')
  {
    KeptIsClosed(s);
    forall h | h in s'.handles ensures DangleOk(s', h) {
      if Registered(s, h) {
        NothingDoomed(s, h);
        var t := s.handles[h].target;
        if s.handles[h].stamp != s.epoch {
          assert t in KeptData(s);
        } else {
          assert LockedIn(s, s.handles[h].owner);
          var d := s.handles[h].owner.data;
          assert DatumOk(s, s.data[d]);
          assert s.data[d].mark == s.epoch ==> Kept(s, t) || Pending(s, h);
          assert MarkOk(s, d, s.data[d]);
        }
      }
    }
  }

  lemma MarkEndInv(s: State)
    requires Inv(s) && CollectorEnabled(s, MarkEnd)
    ensures Inv(CollectorApply(s, MarkEnd))
  {
    var s' := CollectorApply(s, MarkEnd);
    assert Shape(s') by {
      forall d | d in s.data ensures DatumOk(s', s'.data[d]) {
        assert DatumOk(s, s.data[d]);
        assert s.data[d].status == Tracked ==> MarkOk(s, d, s.data[d]);
      }
    }
    OutstandingKept(s, s');
    MailKept(s, s');
    MarkEndSafe(s, s');
    TracingIdle(s');
  }

  // ---- release and sweep

  lemma ReleaseOneShape(s: State, d: DataId)
    requires Inv(s) && CollectorEnabled(s, ReleaseOne(d))
    ensures Shape(CollectorApply(s, ReleaseOne(d)))
  {
    hide Safe, Post, Tracing;
    assert DatumOk(s, s.data[d]);
  }

  lemma ReleaseOneInv(s: State, d: DataId)
    requires Inv(s) && CollectorEnabled(s, ReleaseOne(d))
    ensures Inv(CollectorApply(s, ReleaseOne(d)))
  {
    hide Tracing;
    var s' := CollectorApply(s, ReleaseOne(d));
    ReleaseOneShape(s, d);
    assert forall x :: Doomed(s', x) <==> Doomed(s, x);
    OutstandingKept(s, s');
    assert Post(s') by {
      hide Shape, Safe;
      MailKept(s, s');
      assert forall x :: IsSwept(s', x) <==> IsSwept(s, x);
    }
    assert Safe(s') by { hide Post; SameDangle(s, s'); }
    TracingIdle(s');
    hide Shape, Safe, Post;
  }

  lemma ReleaseEndInv(s: State)
    requires Inv(s) && CollectorEnabled(s, ReleaseEnd)
    ensures Inv(CollectorApply(s, ReleaseEnd))
  {
    var s' := CollectorApply(s, ReleaseEnd);
    assert Shape(s');
    MailKept(s, s');
    assert forall x :: IsSwept(s', x) <==> IsSwept(s, x);
    SameDangle(s, s');
    TracingIdle(s');
  }

  lemma SweepShape(s: State, s': State, d: DataId)
    requires Shape(s) && s.phase.Sweep? && d in s.data && s.data[d].status == Tracked && s' == SweptOver(s, d)
    ensures Shape(s')
    ensures forall x :: Doomed(s', x) <==> Doomed(s, x)
  {
    assert MarkOk(s, d, s.data[d]) && DatumOk(s, s.data[d]);
    SweepDatum(s, s', d);
    SweepMarks(s, s', d);
    hide MarkInv, DatumInv, MarkOk, DatumOk, Doomed;
  }

  lemma SweepDatum(s: State, s': State, d: DataId)
    requires DatumInv(s) && s.epoch >= 2 && s.phase.Sweep? && d in s.data && s.data[d].status == Tracked
    requires MarkOk(s, d, s.data[d]) && s' == SweptOver(s, d)
    ensures DatumInv(s') && s'.phase.Sweep? && s'.epoch == s.epoch
    ensures forall x :: Doomed(s', x) <==> Doomed(s, x)
  {
  }

  lemma SweepMarks(s: State, s': State, d: DataId)
    requires MarkInv(s) && s.phase.Sweep? && d in s.data && d in s'.data
    requires s'.phase.Sweep? && s'.phase.sweepTodo == s.phase.sweepTodo - {d} && s'.epoch == s.epoch
    requires s'.data == s.data[d := s'.data[d]]
    requires s'.data[d].status == Tracked ==> s'.data[d].mark == s.epoch
    ensures MarkInv(s')
  {
    forall x | x in s'.data && s'.data[x].status == Tracked ensures MarkOk(s', x, s'.data[x]) {
      assert x != d ==> MarkOk(s, x, s.data[x]);
    }
    assert TrackedData(s) - {d} <= TrackedData(s');
  }

  lemma SweepPost(s: State, s': State, d: DataId)
    requires Post(s) && s.phase.Sweep? && d in s.data && s.data[d].status == Tracked && s' == SweptOver(s, d)
    ensures Post(s')
    ensures forall x | Outstanding(s, x) :: Outstanding(s', x)
    ensures s'.data[d].status == Swept ==> Outstanding(s', d)
  {
    MailKept(s, s');
    assert forall x | IsSwept(s, x) :: IsSwept(s', x);
    assert forall x | Outstanding(s, x) :: Outstanding(s', x);
  }

  lemma SweepVisitInv(s: State, d: DataId)
    requires Inv(s) && CollectorEnabled(s, SweepVisit(d))
    ensures Inv(CollectorApply(s, SweepVisit(d)))
  {
    hide Tracing, Post, HandleInv, DatumInv, MarkInv, StampInv;
    var s' := SweptOver(s, d);
    SweepShape(s, s', d);
    SweepPost(s, s', d);
    assert s'.guards == s.guards == map[] && s'.handles == s.handles;
    SameDangle(s, s');
    TracingIdle(s');
  }

  lemma SweepEndPost(s: State, s': State)
    requires Post(s) && CollectorEnabled(s, SweepEnd) && s' == CollectorApply(s, SweepEnd)
    ensures Post(s')
    ensures forall d :: Outstanding(s', d) <==> Outstanding(s, d)
  {
    var n := |s.mail|;
    assert forall i | 0 <= i < n :: s'.mail[i] == s.mail[i];
    assert s'.mail[n] == Batch(s.phase.batch);
    assert forall x :: IsSwept(s', x) <==> IsSwept(s, x);
    forall d ensures Outstanding(s', d) <==> Outstanding(s, d) {
      if d in s.phase.batch {
        assert s'.mail[n].Batch? && d in s'.mail[n].batch;
      }
    }
  }

  lemma SweepEndInv(s: State)
    requires Inv(s) && CollectorEnabled(s, SweepEnd)
    ensures Inv(CollectorApply(s, SweepEnd))
  {
    var s' := CollectorApply(s, SweepEnd);
    assert Shape(s');
    SweepEndPost(s, s');
    assert forall x :: Doomed(s', x) <==> Doomed(s, x) by {
      forall x | x in s.data && s.data[x].status == Tracked ensures !Doomed(s, x) {
        assert MarkOk(s, x, s.data[x]);
      }
    }
    SameDangle(s, s');
    TracingIdle(s');
  }

  lemma BumpInv(s: State)
    requires Inv(s) && CollectorEnabled(s, Bump)
    ensures Inv(CollectorApply(s, Bump))
  {
    hide Tracing;
    var s' := CollectorApply(s, Bump);
    assert Shape(s') by { hide Safe, Post; }
    OutstandingKept(s, s');
    assert Post(s') by { hide Shape, Safe; MailKept(s, s'); }
    assert Safe(s') by { hide Post; SameDangle(s, s'); }
    TracingIdle(s');
    hide Shape, Safe, Post;
  }

  /** Every step of the collecting thread keeps the invariant. */
  lemma CollectorStepInv(s: State, e: CollectorStep)
    requires Inv(s) && CollectorEnabled(s, e)
    ensures Inv(CollectorApply(s, e))
  {
    match e
    case Begin => BeginInv(s);
    case SyncReturn => SyncReturnInv(s);
    case Note(d) => NoteInv(s, d);
    case LockData(d) => LockDataInv(s, d);
    case DataPassEnd => DataPassEndInv(s);
    case SeeHandle(h) => SeeHandleInv(s, h);
    case HandlePassEnd(n) => HandlePassEndInv(s, n);
    case MarkEnd => MarkEndInv(s);
    case ReleaseOne(d) => ReleaseOneInv(s, d);
    case ReleaseEnd => ReleaseEndInv(s);
    case SweepVisit(d) => SweepVisitInv(s, d);
    case SweepEnd => SweepEndInv(s);
    case Bump => BumpInv(s);
  }
}
