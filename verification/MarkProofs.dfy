// The workers of the mark phase keep the invariant, and they finish.
module MarkProofs {
  import opened Heap
  import opened Steps
  import opened Invariant
  import opened ProgramProofs

  ghost predicate OthersHave(workers: seq<Worker>, i: nat, h: HandleId) {
    exists j :: 0 <= j < |workers| && j != i && WorkerHas(workers[j], h)
  }

  lemma PendingSplit(s: State, i: nat, h: HandleId)
    requires Worker?(s, i)
    ensures Pending(s, h) <==>
              h in s.phase.queue || WorkerHas(s.phase.workers[i], h) || OthersHave(s.phase.workers, i, h)
  {
  }

  lemma OthersKept(workers: seq<Worker>, i: nat, w: Worker, h: HandleId)
    requires i < |workers|
    ensures OthersHave(workers[i := w], i, h) <==> OthersHave(workers, i, h)
  {
    if OthersHave(workers, i, h) {
      var j :| 0 <= j < |workers| && j != i && WorkerHas(workers[j], h);
      assert WorkerHas(workers[i := w][j], h);
    }
    if OthersHave(workers[i := w], i, h) {
      var j :| 0 <= j < |workers| && j != i && WorkerHas(workers[i := w][j], h);
      assert WorkerHas(workers[j], h);
    }
  }

  /** What is pending after worker `i` goes on to `w` and the queue becomes `queue`. */
  lemma PendingAfter(s: State, s': State, i: nat)
    requires Worker?(s, i) && Worker?(s', i) && s'.phase.workers == s.phase.workers[i := s'.phase.workers[i]]
    ensures forall h :: Pending(s', h) <==>
              h in s'.phase.queue || WorkerHas(s'.phase.workers[i], h) || OthersHave(s.phase.workers, i, h)
    ensures forall h :: Pending(s, h) <==>
              h in s.phase.queue || WorkerHas(s.phase.workers[i], h) || OthersHave(s.phase.workers, i, h)
  {
    forall h
      ensures Pending(s', h) <==>
                h in s'.phase.queue || WorkerHas(s'.phase.workers[i], h) || OthersHave(s.phase.workers, i, h)
    {
      PendingSplit(s', i, h);
      OthersKept(s.phase.workers, i, s'.phase.workers[i], h);
    }
  }

  /** A worker's step that marks nothing: pending handles only go when their target is
      kept. */
  ghost predicate WorkerMove(s: State, s': State) {
    && s.phase.Mark? && s'.phase.Mark?
    && s' == s.(phase := s'.phase)
    && s'.phase.roots == s.phase.roots && s'.phase.inUse == s.phase.inUse && s'.phase.scans == s.phase.scans
    && (forall h | Pending(s', h) :: Pending(s, h))
    && (forall h | Pending(s, h) :: Pending(s', h) || (h in s.handles && Kept(s, s.handles[h].target)))
  }

  lemma MoveShape(s: State, s': State)
    requires Shape(s) && Safe(s) && Post(s) && WorkerMove(s, s')
    ensures Shape(s') && Safe(s') && Post(s')
  {
    hide Shape, Safe, Post;
    FrozenOn(s, s');
  }

  lemma MoveCover(s: State, s': State)
    requires HandleInv(s) && HandleInv(s') && Tracing(s) && WorkerMove(s, s')
    ensures CoverInv(s') && TriColour(s')
  {
    forall S | CoverClosed(s', S) ensures CoverClosed(s, S) {
      forall h | h in s.handles && Pending(s, h) ensures s.handles[h].target in S {
        assert Pending(s', h) || Kept(s, s.handles[h].target);
      }
    }
  }

  lemma MovePending(s: State, s': State)
    requires PendingInv(s) && WorkerMove(s, s')
    ensures PendingInv(s')
  {
  }

  lemma MoveSeed(s: State, s': State)
    requires HandleInv(s) && HandleInv(s') && Tracing(s) && WorkerMove(s, s')
    ensures SeedInv(s')
  {
    assert MarkedData(s') == MarkedData(s);
    forall S | SeedClosed(s', S) ensures SeedClosed(s, S) {}
  }

  lemma WorkerMoveInv(s: State, s': State)
    requires Inv(s) && WorkerMove(s, s') && ScanInv(s')
    ensures Inv(s')
  {
    MoveShape(s, s');
    MovePending(s, s');
    MoveCover(s, s');
    MoveSeed(s, s');
  }

  /** Only worker `i` changed, and it does not begin a scan. */
  lemma ScanStep(s: State, s': State, i: nat)
    requires ScanInv(s) && Worker?(s, i) && Worker?(s', i)
    requires s' == s.(phase := s'.phase) && s'.phase.scans == s.phase.scans
    requires s'.phase.workers == s.phase.workers[i := s'.phase.workers[i]]
    requires ScanOk(s, s'.phase.workers[i])
    requires s'.phase.workers[i].Scanning? ==>
               s.phase.workers[i].Scanning? && s.phase.workers[i].data == s'.phase.workers[i].data
    ensures ScanInv(s')
  {
  }

  lemma SimpleStep(s: State, e: WorkerStep)
    requires HandleInv(s) && ScanInv(s) && WorkerEnabled(s, e)
    requires !e.SwapMark? || s.data[s.handles[s.phase.workers[e.i].handle].target].mark == s.epoch
    ensures WorkerMove(s, WorkerApply(s, e)) && ScanInv(WorkerApply(s, e))
  {
    var s' := WorkerApply(s, e);
    PendingAfter(s, s', e.i);
    assert ScanOk(s, s.phase.workers[e.i]);
    ScanStep(s, s', e.i);
  }

  // ---- the step that marks

  /** All non-new data that is not locked is already marked. */
  lemma UnmarkedIsLocked(s: State, i: nat)
    requires Core(s) && WorkerEnabled(s, SwapMark(i))
    ensures var d := s.handles[s.phase.workers[i].handle].target;
            s.data[d].mark != s.epoch ==>
              s.data[d].status == Tracked && s.data[d].lock == Exclusive && s.data[d].mark == s.epoch - 1
  {
    var h := s.phase.workers[i].handle;
    PendingSplit(s, i, h);
    assert ScanOk(s, s.phase.workers[i]);
    assert Pending(s, h) && !Doomed(s, s.handles[h].target);
    var d := s.handles[h].target;
    assert DatumOk(s, s.data[d]);
    if s.data[d].status == Tracked { assert MarkOk(s, d, s.data[d]); }
  }

  ghost predicate Marks(s: State, s': State, i: nat, d: DataId) {
    && WorkerEnabled(s, SwapMark(i)) && s' == WorkerApply(s, SwapMark(i))
    && d == s.handles[s.phase.workers[i].handle].target
    && s.data[d].status == Tracked && s.data[d].lock == Exclusive && s.data[d].mark == s.epoch - 1
    && d in s.data && s.phase.Mark? && s'.phase.Mark?
    && s' == s.(phase := s'.phase, data := s.data[d := s.data[d].(mark := s.epoch)])
    && s'.phase.roots == s.phase.roots && s'.phase.inUse == s.phase.inUse
    && s'.phase.scans == s.phase.scans + multiset{d}
  }

  lemma MarksPending(s: State, s': State, i: nat, d: DataId)
    requires HandleInv(s) && Marks(s, s', i, d)
    ensures forall h | Pending(s', h) :: Pending(s, h) || h in ReportedIn(s, d)
    ensures forall h | Pending(s, h) :: Pending(s', h) || h == s.phase.workers[i].handle
    ensures forall h | h in ReportedIn(s, d) :: Pending(s', h)
  {
    PendingAfter(s, s', i);
  }

  lemma MarksData(s: State, s': State, i: nat, d: DataId)
    requires Shape(s) && Marks(s, s', i, d)
    ensures Shape(s')
  {
    hide WorkerEnabled, WorkerApply;
  }

  lemma MarksShape(s: State, s': State, i: nat, d: DataId)
    requires Shape(s) && Safe(s) && Post(s) && Marks(s, s', i, d)
    ensures Shape(s') && Safe(s') && Post(s')
  {
    hide WorkerEnabled, WorkerApply, DatumInv, MarkInv, StampInv;
    assert forall x :: Doomed(s', x) <==> Doomed(s, x);
    OutstandingKept(s, s');
    MarksData(s, s', i, d);
    assert Post(s') by {
      hide Shape, Safe;
      MailKept(s, s');
      assert forall x :: IsSwept(s', x) <==> IsSwept(s, x);
    }
    assert Safe(s') by {
      hide Post;
      forall h | h in s'.handles ensures DangleOk(s', h) { assert DangleOk(s, h); }
    }
    hide Shape, Safe, Post;
  }

  lemma MarksCover(s: State, s': State, i: nat, d: DataId)
    requires HandleInv(s) && HandleInv(s') && Tracing(s) && Marks(s, s', i, d)
    ensures CoverInv(s')
  {
    MarksPending(s, s', i, d);
    forall S | CoverClosed(s', S) ensures CoverClosed(s, S) {
      forall x | x in s.data && (s.data[x].mark == 0 || s.data[x].mark == s.epoch) ensures x in S {
        assert x in s'.data;
      }
      assert d in s'.data && d in S;
    }
  }

  lemma MarksColour(s: State, s': State, i: nat, d: DataId)
    requires HandleInv(s) && HandleInv(s') && TriColour(s) && Marks(s, s', i, d)
    ensures TriColour(s')
  {
    MarksPending(s, s', i, d);
    assert forall x | Kept(s, x) :: Kept(s', x);
    forall h |
      && h in s'.handles && LockedIn(s', s'.handles[h].owner)
      && s'.data[s'.handles[h].owner.data].mark == s'.epoch
      ensures Kept(s', s'.handles[h].target) || Pending(s', h)
    {
      if s.handles[h].owner.data == d {
        assert h in ReportedIn(s, d);
      }
    }
  }

  lemma MarksQueue(s: State, s': State, i: nat, d: DataId)
    requires HandleInv(s) && Safe(s) && PendingInv(s) && Marks(s, s', i, d)
    ensures PendingInv(s')
  {
  }

  lemma MarksScan(s: State, s': State, i: nat, d: DataId)
    requires HandleInv(s) && ScanInv(s) && Marks(s, s', i, d)
    ensures ScanInv(s')
    ensures s.phase.scans[d] == 0
  {
    forall j | 0 <= j < |s'.phase.workers| ensures ScanOk(s', s'.phase.workers[j]) {
      assert j != i ==> ScanOk(s, s.phase.workers[j]);
    }
    forall j | 0 <= j < |s.phase.workers| && j != i && s.phase.workers[j].Scanning?
      ensures s.phase.workers[j].data != d
    {
      assert ScanOk(s, s.phase.workers[j]);
    }
  }

  lemma MarksSeed(s: State, s': State, i: nat, d: DataId)
    requires HandleInv(s) && HandleInv(s') && Tracing(s) && Marks(s, s', i, d)
    ensures SeedInv(s')
  {
    MarksPending(s, s', i, d);
    PendingSplit(s, i, s.phase.workers[i].handle);
    assert MarkedData(s') == MarkedData(s) + {d};
    assert forall x | Kept(s, x) :: Kept(s', x);
    forall S | SeedClosed(s', S) ensures SeedClosed(s, S) {}
    forall S, h | SeedClosed(s', S) && h in s.handles && Pending(s', h) && s.data[s.handles[h].target].mark != 0
      ensures s.handles[h].target in S
    {
      if !Pending(s, h) {
        assert s.handles[h].owner == Inside(d, true);
      }
    }
  }

  lemma SwapMarkInv(s: State, i: nat)
    requires Inv(s) && WorkerEnabled(s, SwapMark(i))
    ensures Inv(WorkerApply(s, SwapMark(i)))
  {
    var s' := WorkerApply(s, SwapMark(i));
    var d := s.handles[s.phase.workers[i].handle].target;
    if s.data[d].mark == s.epoch {
      SimpleStep(s, SwapMark(i));
      WorkerMoveInv(s, s');
    } else {
      UnmarkedIsLocked(s, i);
      MarksShape(s, s', i, d);
      MarksCover(s, s', i, d);
      MarksColour(s, s', i, d);
      MarksQueue(s, s', i, d);
      MarksScan(s, s', i, d);
      MarksSeed(s, s', i, d);
    }
  }

  /** Every step of a mark worker keeps the invariant. */
  lemma WorkerStepInv(s: State, e: WorkerStep)
    requires Inv(s) && WorkerEnabled(s, e)
    ensures Inv(WorkerApply(s, e))
  {
    if e.SwapMark? {
      SwapMarkInv(s, e.i);
    } else {
      SimpleStep(s, e);
      WorkerMoveInv(s, WorkerApply(s, e));
    }
  }
}
