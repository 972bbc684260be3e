// The inductive invariant of the concurrent collector.
module Invariant {
  import opened Basics
  import opened Heap
  import opened Steps

  /** Exclusive warrants may be held by the collector. */
  predicate Holding(s: State) {
    s.phase.DataPass? || s.phase.HandlePass? || s.phase.Mark? || s.phase.Release?
  }

  /** From the first stamp until the warrants are given back. */
  predicate Frozen(s: State) {
    s.phase.DataPass? || s.phase.HandlePass? || s.phase.Mark?
  }

  /** Deallocated, on the way to it, or left unmarked by the finished mark phase. */
  predicate DoomedDatum(s: State, m: Datum) {
    match m.status
    case Swept => true
    case Freed => true
    case Tracked => (s.phase.Release? || s.phase.Sweep?) && m.mark != 0 && m.mark != s.epoch
    case _ => false
  }

  predicate Doomed(s: State, d: DataId) {
    d in s.data && DoomedDatum(s, s.data[d])
  }

  ghost predicate HandleInv(s: State) {
    && s.epoch >= 2
    && forall h | h in s.handles ::
         && s.handles[h].target in s.data
         && s.handles[h].stamp <= s.epoch
         && OwnerOk(s, s.handles[h].owner)
  }

  /** Pointers are inside written data; a deallocation leaves only unreported ones. */
  predicate OwnerOk(s: State, o: Owner) {
    o.Inside? ==>
      && o.data in s.data && s.data[o.data].status != Building
      && (o.reported ==> s.data[o.data].status != Freed)
  }

  predicate DatumOk(s: State, m: Datum) {
    && (m.lock.Shared? && m.lock.n > 0 ==> !DoomedDatum(s, m))
    && match m.status
    case Building => m.mark == 0 && m.lock.Shared?
    case Ready => m.mark == 0 && m.lock.Shared? && !m.deallocated
    case Tracked => !m.deallocated && (m.lock == Exclusive ==> Holding(s))
    case Swept => m.lock == Shared(0) && 0 < m.mark < s.epoch
    case Freed => m.lock == Shared(0) && 0 < m.mark < s.epoch && m.deallocated
  }

  ghost predicate DatumInv(s: State) {
    forall d | d in s.data :: DatumOk(s, s.data[d])
  }

  /** The marks of tracked data, phase by phase. */
  predicate MarkOk(s: State, d: DataId, m: Datum) {
    match s.phase
    case Quiet => m.mark == 0 || m.mark == s.epoch - 1
    case Syncing(_) => m.mark == 0 || m.mark == s.epoch - 1
    case DataPass(todo, noted) =>
      if d in todo then m.lock.Shared? && (m.mark == s.epoch - 1 || (m.mark == 0 && d !in noted))
      else Settled(s, m)
    case HandlePass(_, _) => Settled(s, m)
    case Mark(_, _, _, _, _) => Settled(s, m) || m.mark == s.epoch
    case Release => m.mark == 0 || m.mark == s.epoch - 1 || m.mark == s.epoch
    case Sweep(todo, _) => m.mark == 0 || m.mark == s.epoch || (m.mark == s.epoch - 1 && d in todo)
    case Finish => m.mark == 0 || m.mark == s.epoch
  }

  /** After its visit in the data pass: not seen, in use and marked, or locked. */
  predicate Settled(s: State, m: Datum) {
    || (m.mark == 0 && m.lock.Shared?)
    || (m.mark == s.epoch && m.lock.Shared?)
    || (m.mark == s.epoch - 1 && m.lock == Exclusive)
  }

  ghost predicate MarkInv(s: State) {
    && (forall d | d in s.data && s.data[d].status == Tracked :: MarkOk(s, d, s.data[d]))
    && (s.phase.DataPass? ==> s.phase.noted <= s.phase.dataTodo <= TrackedData(s))
    && (s.phase.Sweep? ==> s.phase.sweepTodo <= TrackedData(s))
  }

  predicate LockedIn(s: State, o: Owner) {
    o.Inside? && o.reported && o.data in s.data && s.data[o.data].lock == Exclusive
  }

  /** While the graph is frozen, the stamped handles are exactly those that a locked
      allocation reports; before a collection no handle carries the current number. */
  ghost predicate StampInv(s: State) {
    && (Frozen(s) ==> forall h | h in s.handles ::
          s.handles[h].stamp == s.epoch <==> LockedIn(s, s.handles[h].owner))
    && (s.phase.Quiet? || s.phase.Syncing? ==> forall h | h in s.handles :: s.handles[h].stamp < s.epoch)
  }

  /** Pointers read from an atomic cell and not wrapped yet. */
  ghost predicate GuardInv(s: State) {
    && (s.guards != map[] ==> s.phase.Quiet?)
    && (forall t | t in s.guards && s.guards[t].Some? ::
          s.guards[t].value in s.data && !Doomed(s, s.guards[t].value))
  }

  /** `d` belongs to the batch that is being swept, sent, or dropped. */
  ghost predicate Outstanding(s: State, d: DataId) {
    || (s.phase.Sweep? && d in s.phase.batch)
    || (!s.work.NoWork? && d in s.work.batch)
    || (exists i :: 0 <= i < |s.mail| && s.mail[i].Batch? && d in s.mail[i].batch)
  }

  /** Only doomed data points at doomed data, and then at data of the same batch. */
  ghost predicate DangleOk(s: State, h: HandleId)
    requires h in s.handles && s.handles[h].target in s.data
  {
    var o := s.handles[h].owner;
    o != Gone && Doomed(s, s.handles[h].target) ==>
      && o.Inside? && o.reported && Doomed(s, o.data) && s.data[o.data].status != Freed
      && (s.data[s.handles[h].target].status == Tracked || Outstanding(s, s.handles[h].target))
  }

  ghost predicate DangleInv(s: State)
    requires HandleInv(s)
  {
    forall h | h in s.handles :: DangleOk(s, h)
  }

  // ---- the mailbox of the dropper

  predicate NoBatch(s: State) {
    s.work.NoWork? && forall i | 0 <= i < |s.mail| :: s.mail[i].SyncUp?
  }

  /** At most one batch is under way, none of it while a collection runs, and the
      reply to a collector's sync-up means that the batch before it is finished. */
  ghost predicate MailInv(s: State) {
    && (forall i, j | 0 <= i < j < |s.mail| :: !(s.mail[i].Batch? && s.mail[j].Batch?))
    && (!s.work.NoWork? ==> forall i | 0 <= i < |s.mail| :: s.mail[i].SyncUp?)
    && (forall i | 0 <= i < |s.mail| && s.mail[i].SyncUp? :: s.mail[i].ticket < s.tickets)
    && (forall i, j | 0 <= i < j < |s.mail| && s.mail[i].SyncUp? && s.mail[j].SyncUp? ::
          s.mail[i].ticket < s.mail[j].ticket)
    && (forall t | t in s.acked :: t < s.tickets)
    && (Frozen(s) || s.phase.Release? || s.phase.Sweep? ==> NoBatch(s))
    && (s.phase.Syncing? ==>
          if s.phase.ticket in s.acked then NoBatch(s) else AwaitsReply(s, s.phase.ticket))
  }

  ghost predicate AwaitsReply(s: State, ticket: nat) {
    exists i ::
      && 0 <= i < |s.mail| && s.mail[i] == SyncUp(ticket)
      && forall j | i < j < |s.mail| :: s.mail[j].SyncUp?
  }

  /** The batch under way is exactly the swept data, and its flags are set before the
      first deallocation. */
  ghost predicate BatchInv(s: State) {
    && (forall d | d in s.data && s.data[d].status == Swept :: Outstanding(s, d))
    && (s.phase.Sweep? ==> forall d | d in s.phase.batch :: IsSwept(s, d))
    && (forall i | 0 <= i < |s.mail| && s.mail[i].Batch? :: forall d | d in s.mail[i].batch :: IsSwept(s, d))
    && (s.work.Flagging? ==>
          && s.work.left <= s.work.batch
          && forall d | d in s.work.batch :: IsSwept(s, d) && (d in s.work.left || s.data[d].deallocated))
    && (s.work.Dropping? ==>
          && s.work.left <= s.work.batch
          && forall d | d in s.work.batch ::
               d in s.data && s.data[d].deallocated && s.data[d].status == if d in s.work.left then Swept else Freed)
  }

  predicate IsSwept(s: State, d: DataId) {
    d in s.data && s.data[d].status == Swept
  }

  // ---- roots and marking

  /** Handles whose targets the mark phase still has to look at. */
  predicate WorkerHas(w: Worker, h: HandleId) {
    match w
    case Resting => false
    case Taken(g) => g == h
    case Loaded(g) => g == h
    case Scanning(_, rem, pend) => h in rem || pend == Some(h)
  }

  ghost predicate Pending(s: State, h: HandleId) {
    match s.phase
    case HandlePass(todo, found) =>
      h in found || (h in todo && Registered(s, h) && s.handles[h].stamp != s.epoch)
    case Mark(queue, workers, _, _, _) =>
      h in queue || exists i :: 0 <= i < |workers| && WorkerHas(workers[i], h)
    case _ => false
  }

  ghost predicate PendingInv(s: State) {
    && (forall h | Pending(s, h) :: h in s.handles && s.handles[h].target in s.data && !Doomed(s, s.handles[h].target))
    && (s.phase.HandlePass? ==> s.phase.todo <= s.handles.Keys)
  }

  /** Will be retained anyway: new, or marked by this collection. */
  predicate Kept(s: State, d: DataId) {
    d in s.data && (s.data[d].mark == 0 || s.data[d].mark == s.epoch)
  }

  /** `S` holds what is kept, what is about to be looked at, and with each locked
      allocation everything that it reports. */
  ghost predicate CoverClosed(s: State, S: set<DataId>) {
    && (forall d | d in s.data && (s.data[d].mark == 0 || s.data[d].mark == s.epoch) :: d in S)
    && (forall h | h in s.handles && Pending(s, h) :: s.handles[h].target in S)
    && (forall h | h in s.handles && LockedIn(s, s.handles[h].owner) && s.handles[h].owner.data in S ::
          s.handles[h].target in S)
  }

  /** Every pointer that the collector did not find inside locked data leads to
      something kept or still to be marked. */
  ghost predicate CoverInv(s: State) {
    (s.phase.HandlePass? || s.phase.Mark?) ==>
      forall S | CoverClosed(s, S) ::
        forall h | Registered(s, h) && s.handles[h].stamp != s.epoch :: s.handles[h].target in S
  }

  /** What a marked, locked allocation reports is kept or pending. */
  ghost predicate TriColour(s: State) {
    s.phase.Mark? ==>
      forall h | h in s.handles && LockedIn(s, s.handles[h].owner) && s.data[s.handles[h].owner.data].mark == s.epoch ::
        Kept(s, s.handles[h].target) || Pending(s, h)
  }

  /** A scan touches a locked allocation, marked by this worker alone, and only the
      handles that it reports. */
  predicate ScanOk(s: State, w: Worker) {
    && (w.Loaded? ==>
      && w.handle in s.handles && s.handles[w.handle].target in s.data
      && s.data[s.handles[w.handle].target].mark != 0)
    && (w.Scanning? ==>
      && w.data in s.data && s.data[w.data].lock == Exclusive && s.data[w.data].mark == s.epoch
      && (forall h | h in w.rem :: h in s.handles && s.handles[h].owner == Inside(w.data, true))
      && (w.pend.Some? ==> w.pend.value in s.handles && s.handles[w.pend.value].owner == Inside(w.data, true)))
  }

  ghost predicate ScanInv(s: State) {
    s.phase.Mark? ==>
      && (forall i | 0 <= i < |s.phase.workers| :: ScanOk(s, s.phase.workers[i]))
      && (forall i, j |
            && 0 <= i < j < |s.phase.workers|
            && s.phase.workers[i].Scanning? && s.phase.workers[j].Scanning? ::
            s.phase.workers[i].data != s.phase.workers[j].data)
      && (forall d :: s.phase.scans[d] ==
            if d in s.data && s.data[d].lock == Exclusive && s.data[d].mark == s.epoch then 1 else 0)
  }

  /** `S` holds the data in use and the non-new targets of the roots, and with each
      locked allocation the non-new targets of what it reports. */
  ghost predicate SeedClosed(s: State, S: set<DataId>)
    requires s.phase.Mark? && HandleInv(s)
  {
    && s.phase.inUse <= S
    && (forall h | h in s.phase.roots && h in s.handles && s.data[s.handles[h].target].mark != 0 ::
          s.handles[h].target in S)
    && (forall h |
          && h in s.handles && LockedIn(s, s.handles[h].owner) && s.handles[h].owner.data in S
          && s.data[s.handles[h].target].mark != 0 ::
          s.handles[h].target in S)
  }

  /** Nothing is marked that the seeds do not lead to, and no seed is forgotten. */
  ghost predicate SeedInv(s: State)
    requires HandleInv(s)
  {
    s.phase.Mark? ==>
      && (forall S | SeedClosed(s, S) ::
            && MarkedData(s) <= S
            && forall h | h in s.handles && Pending(s, h) && s.data[s.handles[h].target].mark != 0 ::
                 s.handles[h].target in S)
      && s.phase.inUse <= MarkedData(s)
      && (forall h | h in s.phase.roots :: h in s.handles && (Kept(s, s.handles[h].target) || Pending(s, h)))
  }

  /** Shape of the state. */
  ghost predicate Shape(s: State) {
    HandleInv(s) && DatumInv(s) && MarkInv(s) && StampInv(s)
  }

  /** No dangling pointer, now or later. */
  ghost predicate Safe(s: State)
    requires HandleInv(s)
  {
    GuardInv(s) && DangleInv(s)
  }

  ghost predicate Post(s: State) {
    MailInv(s) && BatchInv(s)
  }

  /** Progress of the tracing, from the handle pass to the end of the mark phase. */
  ghost predicate Tracing(s: State)
    requires HandleInv(s)
  {
    PendingInv(s) && CoverInv(s) && TriColour(s) && ScanInv(s) && SeedInv(s)
  }

  ghost predicate Inv(s: State) {
    Shape(s) && Safe(s) && Post(s) && Tracing(s)
  }

  /** The part that does not depend on when the program drops its handles, as long as the
      mark phase has not ended. */
  ghost predicate Core(s: State) {
    Shape(s) && Safe(s) && Post(s) && PendingInv(s) && ScanInv(s)
  }

  lemma InitInv()
    ensures Inv(INIT)
  {
  }

  // ---- what the invariant says about live data

  /** Nothing live is doomed. */
  lemma LiveNotDoomed(s: State, d: DataId)
    requires Inv(s) && Live(s, d)
    ensures d in s.data && !Doomed(s, d)
  {
    var S := set x | x in s.data && !Doomed(s, x);
    assert LiveClosed(s, S) by {
      forall h | HeldBy(s, h, S) ensures s.handles[h].target in S {
        assert DangleOk(s, h);
      }
    }
  }

  /** During the handle pass and the mark phase everything live is covered. */
  lemma LiveCovered(s: State, d: DataId, S: set<DataId>)
    requires Inv(s) && (s.phase.HandlePass? || s.phase.Mark?)
    requires Live(s, d) && CoverClosed(s, S)
    ensures d in S
  {
    assert LiveClosed(s, S) by {
      forall x | InUse(s, x) ensures x in S {
        assert DatumOk(s, s.data[x]);
        assert s.data[x].status == Tracked ==> MarkOk(s, x, s.data[x]);
      }
      forall h | HeldBy(s, h, S) ensures s.handles[h].target in S {
        if s.handles[h].stamp == s.epoch {
          assert LockedIn(s, s.handles[h].owner);
        }
      }
    }
  }
}
