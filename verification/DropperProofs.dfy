// The dropper's steps keep the invariant.
module DropperProofs {
  import opened Heap
  import opened Steps
  import opened Invariant
  import opened ProgramProofs

  /** Work on a batch and collecting exclude each other. */
  predicate Between(s: State) {
    s.phase.Quiet? || s.phase.Syncing? || s.phase.Finish?
  }

  lemma WorkBetween(s: State)
    requires MailInv(s) && (!s.work.NoWork? || exists i :: 0 <= i < |s.mail| && s.mail[i].Batch?)
    ensures Between(s)
  {
  }

  lemma TracingIdle(s: State)
    requires HandleInv(s) && !s.phase.HandlePass? && !s.phase.Mark?
    ensures Tracing(s)
  {
  }

  /** While a batch is being dropped, it is the only one. */
  lemma OutstandingIsWork(s: State, d: DataId)
    requires MailInv(s) && !s.work.NoWork? && Outstanding(s, d)
    ensures d in s.work.batch
  {
  }

  /** A pointer inside data that is being dropped leads to intact data, or to data of
      the same batch, whose flag is already up. */
  lemma DropTarget(s: State, d: DataId, h: HandleId)
    requires Shape(s) && Safe(s) && Post(s) && s.work.Dropping? && d in s.work.left
    requires h in s.handles && s.handles[h].owner.Inside? && s.handles[h].owner.data == d
    ensures || !Doomed(s, s.handles[h].target)
            || (s.handles[h].target in s.work.batch && s.data[s.handles[h].target].deallocated)
  {
    WorkBetween(s);
    assert DangleOk(s, h);
    if Doomed(s, s.handles[h].target) {
      OutstandingIsWork(s, s.handles[h].target);
    }
  }

  lemma ReceiveMail(s: State, s': State)
    requires MailInv(s) && DropperEnabled(s, Receive) && s' == DropperApply(s, Receive)
    ensures MailInv(s')
  {
    hide AwaitsReply;
    assert forall i | 0 <= i < |s'.mail| :: s'.mail[i] == s.mail[i+1];
    if s.phase.Syncing? && s.phase.ticket !in s.acked {
      AwaitsStill(s, s', s.phase.ticket);
    }
  }

  /** Either the reply is given, and then nothing but requests is left, or it is still
      to come. */
  lemma AwaitsStill(s: State, s': State, ticket: nat)
    requires MailInv(s) && AwaitsReply(s, ticket) && s.mail != [] && s'.mail == s.mail[1..]
    ensures if s.mail[0] == SyncUp(ticket) then forall i | 0 <= i < |s'.mail| :: s'.mail[i].SyncUp?
            else AwaitsReply(s', ticket)
  {
  }

  lemma ReceiveBatch(s: State, s': State)
    requires Post(s) && DropperEnabled(s, Receive) && s' == DropperApply(s, Receive)
    ensures BatchInv(s')
  {
    assert forall i | 0 <= i < |s'.mail| :: s'.mail[i] == s.mail[i+1];
    ReceiveOutstanding(s, s');
    assert forall d :: IsSwept(s', d) <==> IsSwept(s, d);
  }

  lemma ReceiveOutstanding(s: State, s': State)
    requires DropperEnabled(s, Receive) && s' == DropperApply(s, Receive)
    ensures forall d :: Outstanding(s', d) <==> Outstanding(s, d)
  {
  }

  lemma ReceiveInv(s: State)
    requires Inv(s) && DropperEnabled(s, Receive)
    ensures Inv(DropperApply(s, Receive))
  {
    hide Tracing, Safe, MailInv, BatchInv, Legal, HandleInv, DatumInv, MarkInv, StampInv;
    var s' := DropperApply(s, Receive);
    ReceiveMail(s, s');
    ReceiveBatch(s, s');
    ReceiveOutstanding(s, s');
    MailUndisturbed(s, s');
    SafeKept(s, s');
    TracingUndisturbed(s, s');
  }

  lemma FlagInv(s: State, d: DataId)
    requires Inv(s) && DropperEnabled(s, FlagOne(d))
    ensures Inv(DropperApply(s, FlagOne(d)))
  {
    hide Tracing, Safe, HandleInv, MarkInv, StampInv;
    WorkBetween(s);
    var s' := DropperApply(s, FlagOne(d));
    WorkShape(s, s', d);
    assert Post(s') by { hide Shape; }
    WorkSafe(s, s', d);
    hide Shape, Post;
    TracingIdle(s');
  }

  /** Steps on swept data between collections. */
  ghost predicate OnSwept(s: State, s': State, d: DataId) {
    && Between(s) && IsSwept(s, d)
    && s' == s.(data := s'.data, work := s'.work) && d in s'.data && s'.data == s.data[d := s'.data[d]]
    && (s'.data[d].status == Swept || s'.data[d].status == Freed)
    && DatumOk(s, s'.data[d])
  }

  lemma WorkShape(s: State, s': State, d: DataId)
    requires Shape(s) && OnSwept(s, s', d)
    requires s'.data[d].status == Freed ==> ReportedIn(s, d) == {}
    ensures Shape(s')
  {
    assert forall h | h in s.handles :: h in ReportedIn(s, d) <==> s.handles[h].owner == Inside(d, true);
  }

  lemma WorkSafe(s: State, s': State, d: DataId)
    requires Shape(s) && Safe(s) && OnSwept(s, s', d) && HandleInv(s')
    requires !s.work.NoWork? && !s'.work.NoWork? && s'.work.batch == s.work.batch
    requires s'.data[d].status == Freed ==> ReportedIn(s, d) == {}
    ensures Safe(s')
  {
    assert forall x :: Doomed(s', x) <==> Doomed(s, x);
    assert forall x :: Outstanding(s, x) ==> Outstanding(s', x);
    forall h | h in s'.handles ensures DangleOk(s', h) {
      assert DangleOk(s, h);
      assert h in ReportedIn(s, d) <==> s.handles[h].owner == Inside(d, true);
    }
  }

  lemma FreeInv(s: State, d: DataId)
    requires Inv(s) && DropperEnabled(s, Free(d))
    ensures Inv(DropperApply(s, Free(d)))
  {
    hide Tracing, Safe, HandleInv, MarkInv, StampInv;
    WorkBetween(s);
    var s' := DropperApply(s, Free(d));
    WorkShape(s, s', d);
    assert Post(s') by { hide Shape; }
    WorkSafe(s, s', d);
    hide Shape, Post;
    TracingIdle(s');
  }

  lemma FlagEndInv(s: State)
    requires Inv(s) && DropperEnabled(s, FlagEnd)
    ensures Inv(DropperApply(s, FlagEnd))
  {
    hide Tracing, Safe, Legal, HandleInv, DatumInv, MarkInv, StampInv;
    WorkBetween(s);
    var s' := DropperApply(s, FlagEnd);
    assert Post(s');
    MailUndisturbed(s, s');
    SafeKept(s, s');
    TracingIdle(s');
  }

  lemma BatchEndSafe(s: State, s': State)
    requires HandleInv(s) && HandleInv(s') && Safe(s) && Post(s)
    requires DropperEnabled(s, BatchEnd) && s' == DropperApply(s, BatchEnd)
    ensures Safe(s')
  {
    forall h | h in s'.handles ensures DangleOk(s', h) {
      assert DangleOk(s, h);
      var o := s.handles[h].owner;
      if o != Gone && Doomed(s, s.handles[h].target) {
        // the owner would be swept and not freed, but the batch is finished
        OutstandingIsWork(s, o.data);
      }
    }
  }

  lemma BatchEndInv(s: State)
    requires Inv(s) && DropperEnabled(s, BatchEnd)
    ensures Inv(DropperApply(s, BatchEnd))
  {
    hide Tracing, GuardInv, Legal, DatumInv, MarkInv, StampInv;
    WorkBetween(s);
    var s' := DropperApply(s, BatchEnd);
    assert Post(s') by { hide HandleInv, DangleInv; }
    MailUndisturbed(s, s');
    BatchEndSafe(s, s');
    hide HandleInv, DangleInv, Post;
    TracingIdle(s');
  }

  lemma InvalidateInv(s: State, d: DataId, h: HandleId)
    requires Inv(s) && DropperEnabled(s, Invalidate(d, h))
    ensures Inv(DropperApply(s, Invalidate(d, h)))
  {
    WorkBetween(s);
    ReownUndisturbed(s, h, Gone);
    UndisturbedInv(s, SetOwner(s, h, Gone));
  }

  lemma TargetsKnown(s: State)
    requires HandleInv(s)
    ensures forall h | h in s.handles :: s.handles[h].target in s.data
  {
  }

  lemma DropGetInv(s: State, d: DataId, h: HandleId)
    requires Inv(s) && DropperEnabled(s, DropGet(d, h))
    ensures Inv(DropperApply(s, DropGet(d, h)))
  {
    hide Safe, Post, Tracing, HandleInv, MarkInv, StampInv, Undisturbed;
    assert s.handles[h].target in s.data by { TargetsKnown(s); }
    DropTarget(s, d, h);
    var t := s.handles[h].target;
    DatumUndisturbed(s, t, s.data[t].(lock := Shared(s.data[t].lock.n + 1)));
    UndisturbedInv(s, DropperApply(s, DropGet(d, h)));
  }

  /** Every step of the dropper keeps the invariant. */
  lemma DropperStepInv(s: State, e: DropperStep)
    requires Inv(s) && DropperEnabled(s, e)
    ensures Inv(DropperApply(s, e))
  {
    match e
    case Receive => ReceiveInv(s);
    case FlagOne(d) => FlagInv(s, d);
    case FlagEnd => FlagEndInv(s);
    case Invalidate(d, h) => InvalidateInv(s, d, h);
    case DropGet(d, h) => DropGetInv(s, d, h);
    case Free(d) => FreeInv(s, d);
    case BatchEnd => BatchEndInv(s);
  }
}
