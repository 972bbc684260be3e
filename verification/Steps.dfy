// Every atomic step of the program, of the collector's threads and of the background
// dropper, each as a guard and an effect. A run interleaves them in any order.
module Steps {
  import opened Basics
  import opened Heap

  datatype Step =
    | ByProgram(program: ProgramStep)
    | ByCollector(collector: CollectorStep)
    | ByWorker(worker: WorkerStep)
    | ByDropper(dropper: DropperStep)

  /** Steps of the program's threads. */
  datatype ProgramStep =
    | New(d: DataId, h: HandleId, moved: map<HandleId, bool>)
    | NewUninit(d: DataId, h: HandleId)
    | Flag(d: DataId)
    | Unflag(d: DataId)
    | WriteInit(d: DataId, moved: map<HandleId, bool>)
    | Track(d: DataId, h: HandleId)
    | CountUp(d: DataId)
    | Clone(h: HandleId, k: HandleId)
    | Drop(h: HandleId)
    | MoveIn(h: HandleId, d: DataId, reported: bool)
    | MoveOut(h: HandleId)
    | Get(h: HandleId)
    | Put(d: DataId)
    | AtomicNew(h: HandleId, k: HandleId)
    | GuardTake(t: ThreadId)
    | AtomicLoad(t: ThreadId, h: HandleId)
    | AtomicStore(t: ThreadId, h: HandleId, v: HandleId)
    | AtomicSwap(t: ThreadId, h: HandleId, v: HandleId)
    | AtomicCas(t: ThreadId, h: HandleId, current: HandleId, v: HandleId)
    | AtomicRegister(t: ThreadId, k: HandleId)
    | GuardDrop(t: ThreadId)
    | UserSync

  /** Steps of the collecting thread, one list slot at a time. */
  datatype CollectorStep =
    | Begin
    | SyncReturn
    | Note(d: DataId)
    | LockData(d: DataId)
    | DataPassEnd
    | SeeHandle(h: HandleId)
    | HandlePassEnd(workerCount: nat)
    | MarkEnd
    | ReleaseOne(d: DataId)
    | ReleaseEnd
    | SweepVisit(d: DataId)
    | SweepEnd
    | Bump

  /** Steps of the workers of the mark phase. */
  datatype WorkerStep =
    | Take(i: nat, h: HandleId)
    | LoadMark(i: nat)
    | SwapMark(i: nat)
    | Check(i: nat, h: HandleId)
    | Enqueue(i: nat)
    | ScanEnd(i: nat)

  /** Steps of the thread that deallocates swept data. */
  datatype DropperStep =
    | Receive
    | FlagOne(d: DataId)
    | FlagEnd
    | Invalidate(d: DataId, h: HandleId)
    | DropGet(d: DataId, h: HandleId)
    | Free(d: DataId)
    | BatchEnd

  // ---- effects shared by several steps

  function SetOwner(s: State, h: HandleId, o: Owner): State
    requires h in s.handles
  {
    s.(handles := s.handles[h := s.handles[h].(owner := o)])
  }

  function SetTarget(s: State, h: HandleId, d: DataId): State
    requires h in s.handles
  {
    s.(handles := s.handles[h := s.handles[h].(target := d)])
  }

  /** A new entry of the handle list; handles are created with stamp 0. */
  function AddHandle(s: State, k: HandleId, target: DataId, dynamic: bool): State {
    s.(handles := s.handles[k := Handle(target, dynamic, 0, Program)])
  }

  function SetMark(s: State, d: DataId, m: nat): State
    requires d in s.data
  {
    s.(data := s.data[d := s.data[d].(mark := m)])
  }

  function SetLock(s: State, d: DataId, l: Lock): State
    requires d in s.data
  {
    s.(data := s.data[d := s.data[d].(lock := l)])
  }

  function SetStatus(s: State, d: DataId, status: Status): State
    requires d in s.data
  {
    s.(data := s.data[d := s.data[d].(status := status)])
  }

  function SetFlag(s: State, d: DataId, b: bool): State
    requires d in s.data
  {
    s.(data := s.data[d := s.data[d].(deallocated := b)])
  }

  function Previous(epoch: nat): nat {
    if epoch == 0 then 0 else epoch - 1
  }

  /** A smart pointer of the program that no thread is inside `track` with. */
  predicate AtHand(s: State, h: HandleId) {
    h in s.handles && s.handles[h].owner == Program && h !in s.counting.Values
  }

  predicate CanMove(s: State, moved: map<HandleId, bool>) {
    forall m | m in moved :: AtHand(s, m)
  }

  /** The handles in `moved` go into the freshly written allocation `d`. */
  function MoveAll(s: State, moved: map<HandleId, bool>, d: DataId): State {
    s.(handles := map h | h in s.handles ::
                    if h in moved then s.handles[h].(owner := Inside(d, moved[h])) else s.handles[h])
  }

  /** The collector's scan of `d` stamps every handle that `d` reports. */
  function StampAll(s: State, d: DataId): State {
    s.(handles := map h | h in s.handles ::
                    if s.handles[h].owner == Inside(d, true) then s.handles[h].(stamp := s.epoch) else s.handles[h])
  }

  /** The data pass has looked at the mark of `d`: a new allocation is new no longer. */
  function Noted(s: State, d: DataId): State
    requires s.phase.DataPass? && d in s.data
  {
    var s1 := if s.data[d].mark == 0 then SetMark(s, d, Previous(s.epoch)) else s;
    s1.(phase := DataPass(s.phase.dataTodo + {d}, s.phase.noted + {d}))
  }

  /** The data pass has tried to lock `d`: it stamps what `d` reports, or marks `d`. */
  function Visited(s: State, d: DataId): State
    requires s.phase.DataPass? && d in s.data
  {
    var s1 := if s.data[d].lock == Shared(0) then StampAll(SetLock(s, d, Exclusive), d) else SetMark(s, d, s.epoch);
    s1.(phase := DataPass(s.phase.dataTodo - {d}, s.phase.noted - {d}))
  }

  /** The sweep has come by `d`: new and marked data stays and is marked. */
  function SweptOver(s: State, d: DataId): State
    requires s.phase.Sweep? && d in s.data
  {
    var kept := s.data[d].mark == 0 || s.data[d].mark == s.epoch;
    var s1 := if kept then SetMark(s, d, s.epoch) else SetStatus(s, d, Swept);
    s1.(phase := Sweep(s.phase.sweepTodo - {d}, if kept then s.phase.batch else s.phase.batch + {d}))
  }

  function ReportedIn(s: State, d: DataId): set<HandleId> {
    set h | h in s.handles && s.handles[h].owner == Inside(d, true)
  }

  function TrackedData(s: State): set<DataId> {
    set d | d in s.data && s.data[d].status == Tracked
  }

  function RegisteredHandles(s: State): set<HandleId> {
    set h | h in s.handles && s.handles[h].owner != Gone
  }

  function MarkedData(s: State): set<DataId> {
    set d | d in s.data && s.data[d].mark == s.epoch
  }

  predicate Worker?(s: State, i: nat) {
    s.phase.Mark? && i < |s.phase.workers|
  }

  function SetWorker(s: State, i: nat, w: Worker): State
    requires Worker?(s, i)
  {
    s.(phase := s.phase.(workers := s.phase.workers[i := w]))
  }

  /** A fixed (non-atomic) pointer whose target is not flagged as deallocated. */
  predicate Readable(s: State, h: HandleId) {
    && h in s.handles && !s.handles[h].dynamic
    && s.handles[h].target in s.data && !s.data[s.handles[h].target].deallocated
  }

  predicate HoldsGuard(s: State, t: ThreadId) {
    t in s.guards && s.guards[t] == None
  }

  predicate AtomicCell(s: State, h: HandleId) {
    h in s.handles && s.handles[h].dynamic
  }

  /** The handle that a step makes, and puts into the handle list. */
  function Created(e: Step): Option<HandleId> {
    if !e.ByProgram? then None
    else match e.program
      case New(_, h, _) => Some(h)
      case NewUninit(_, h) => Some(h)
      case Clone(_, k) => Some(k)
      case AtomicNew(_, k) => Some(k)
      case AtomicRegister(_, k) => Some(k)
      case _ => None
  }

  /** The handle that a step takes off the list. */
  function Removed(e: Step): Option<HandleId> {
    match e
    case ByProgram(Drop(h)) => Some(h)
    case ByDropper(Invalidate(_, h)) => Some(h)
    case _ => None
  }

  // ---- the step relation

  ghost predicate ProgramEnabled(s: State, e: ProgramStep) {
    match e
    case New(d, h, moved) => d !in s.data && h !in s.handles && CanMove(s, moved)
    case NewUninit(d, h) => d !in s.data && h !in s.handles
    case Flag(d) => d in s.data && s.data[d].status == Building
    case Unflag(d) => d in s.data && s.data[d].status == Building
    case WriteInit(d, moved) =>
      && d in s.data && s.data[d].status == Building && !s.data[d].deallocated && CanMove(s, moved)
    case Track(d, h) =>
      && d in s.data && s.data[d].status == Ready
      && h in s.handles && s.handles[h].owner == Program && !s.handles[h].dynamic && s.handles[h].target == d
    case CountUp(d) => d in s.counting
    case Clone(h, k) => LiveOwner(s, h) && !s.handles[h].dynamic && k !in s.handles
    case Drop(h) => AtHand(s, h)
    case MoveIn(h, d, _) =>
      && AtHand(s, h)
      && InUse(s, d) && (s.data[d].status == Ready || s.data[d].status == Tracked)
    case MoveOut(h) => h in s.handles && s.handles[h].owner.Inside? && InUse(s, s.handles[h].owner.data)
    case Get(h) => LiveOwner(s, h) && Readable(s, h) && s.data[s.handles[h].target].lock.Shared?
    case Put(d) => InUse(s, d)
    case AtomicNew(h, k) => LiveOwner(s, h) && Readable(s, h) && k !in s.handles
    case GuardTake(t) => t !in s.guards && s.phase == Quiet
    case AtomicLoad(t, h) => HoldsGuard(s, t) && LiveOwner(s, h) && AtomicCell(s, h)
    case AtomicStore(t, h, v) =>
      && HoldsGuard(s, t) && LiveOwner(s, h) && AtomicCell(s, h) && LiveOwner(s, v) && Readable(s, v)
    case AtomicSwap(t, h, v) =>
      && HoldsGuard(s, t) && LiveOwner(s, h) && AtomicCell(s, h) && LiveOwner(s, v) && Readable(s, v)
    case AtomicCas(t, h, current, v) =>
      && HoldsGuard(s, t) && LiveOwner(s, h) && AtomicCell(s, h) && LiveOwner(s, v) && Readable(s, v)
      && LiveOwner(s, current) && !s.handles[current].dynamic
    case AtomicRegister(t, k) => t in s.guards && s.guards[t].Some? && k !in s.handles
    case GuardDrop(t) => HoldsGuard(s, t)
    case UserSync => true
  }

  ghost predicate CollectorEnabled(s: State, e: CollectorStep) {
    match e
    case Begin => s.phase == Quiet && s.guards == map[]
    case SyncReturn => s.phase.Syncing? && s.phase.ticket in s.acked
    case Note(d) =>
      && s.phase.DataPass? && d in s.data && s.data[d].status == Tracked && d !in s.phase.noted
      && (d in s.phase.dataTodo || s.data[d].mark == 0)
    case LockData(d) => s.phase.DataPass? && d in s.phase.noted && d in s.data
    case DataPassEnd => s.phase.DataPass? && s.phase.dataTodo == {} && s.phase.noted == {}
    case SeeHandle(h) => s.phase.HandlePass? && Registered(s, h)
    case HandlePassEnd(_) => s.phase.HandlePass? && forall h | h in s.phase.todo :: !Registered(s, h)
    case MarkEnd =>
      && s.phase.Mark? && s.phase.queue == multiset{}
      && forall i | 0 <= i < |s.phase.workers| :: s.phase.workers[i] == Resting
    case ReleaseOne(d) => s.phase == Release && d in s.data && s.data[d].lock == Exclusive
    case ReleaseEnd => s.phase == Release && forall d | d in s.data :: s.data[d].lock.Shared?
    case SweepVisit(d) => s.phase.Sweep? && d in s.data && s.data[d].status == Tracked
    case SweepEnd => s.phase.Sweep? && s.phase.sweepTodo == {}
    case Bump => s.phase == Finish
  }

  ghost predicate WorkerEnabled(s: State, e: WorkerStep) {
    match e
    case Take(i, h) => Worker?(s, i) && s.phase.workers[i] == Resting && h in s.phase.queue
    case LoadMark(i) =>
      && Worker?(s, i) && s.phase.workers[i].Taken?
      && s.phase.workers[i].handle in s.handles && s.handles[s.phase.workers[i].handle].target in s.data
    case SwapMark(i) =>
      && Worker?(s, i) && s.phase.workers[i].Loaded?
      && s.phase.workers[i].handle in s.handles && s.handles[s.phase.workers[i].handle].target in s.data
    case Check(i, h) =>
      && Worker?(s, i) && s.phase.workers[i].Scanning? && s.phase.workers[i].pend == None
      && h in s.phase.workers[i].rem && h in s.handles && s.handles[h].target in s.data
    case Enqueue(i) => Worker?(s, i) && s.phase.workers[i].Scanning? && s.phase.workers[i].pend.Some?
    case ScanEnd(i) =>
      && Worker?(s, i) && s.phase.workers[i].Scanning?
      && s.phase.workers[i].pend == None && s.phase.workers[i].rem == {}
  }

  ghost predicate DropperEnabled(s: State, e: DropperStep) {
    match e
    case Receive => s.work == NoWork && s.mail != []
    case FlagOne(d) => s.work.Flagging? && d in s.work.left && d in s.data
    case FlagEnd => s.work.Flagging? && s.work.left == {}
    case Invalidate(d, h) =>
      && s.work.Dropping? && d in s.work.left
      && h in s.handles && s.handles[h].owner.Inside? && s.handles[h].owner.data == d
    case DropGet(d, h) =>
      && s.work.Dropping? && d in s.work.left
      && h in s.handles && s.handles[h].owner.Inside? && s.handles[h].owner.data == d
      && Readable(s, h) && s.data[s.handles[h].target].lock.Shared?
    case Free(d) =>
      && s.work.Dropping? && d in s.work.left && d in s.data && ReportedIn(s, d) == {}
    case BatchEnd => s.work.Dropping? && s.work.left == {}
  }

  ghost predicate Enabled(s: State, e: Step) {
    match e
    case ByProgram(p) => ProgramEnabled(s, p)
    case ByCollector(c) => CollectorEnabled(s, c)
    case ByWorker(w) => WorkerEnabled(s, w)
    case ByDropper(d) => DropperEnabled(s, d)
  }

  ghost function ProgramApply(s: State, e: ProgramStep): State
    requires ProgramEnabled(s, e)
  {
    match e
    case New(d, h, moved) =>
      AddHandle(MoveAll(s.(data := s.data[d := Datum(0, Shared(0), Ready, false)]), moved, d), h, d, false)
    case NewUninit(d, h) =>
      AddHandle(s.(data := s.data[d := Datum(0, Shared(0), Building, false)]), h, d, false)
    case Flag(d) => SetFlag(s, d, true)
    case Unflag(d) => SetFlag(s, d, false)
    case WriteInit(d, moved) => SetStatus(MoveAll(s, moved, d), d, Ready)
    case Track(d, h) =>
      var s1 := SetStatus(s, d, Tracked);
      s1.(counting := s.counting[d := h])
    case CountUp(d) => s.(counting := s.counting - {d})
    case Clone(h, k) => AddHandle(s, k, s.handles[h].target, false)
    case Drop(h) => SetOwner(s, h, Gone)
    case MoveIn(h, d, reported) => SetOwner(s, h, Inside(d, reported))
    case MoveOut(h) => SetOwner(s, h, Program)
    case Get(h) =>
      var d := s.handles[h].target;
      SetLock(s, d, Shared(s.data[d].lock.n + 1))
    case Put(d) => SetLock(s, d, Shared(s.data[d].lock.n - 1))
    case AtomicNew(h, k) => AddHandle(s, k, s.handles[h].target, true)
    case GuardTake(t) => s.(guards := s.guards[t := None])
    case AtomicLoad(t, h) => s.(guards := s.guards[t := Some(s.handles[h].target)])
    case AtomicStore(t, h, v) => SetTarget(s, h, s.handles[v].target)
    case AtomicSwap(t, h, v) =>
      var s1 := SetTarget(s, h, s.handles[v].target);
      s1.(guards := s.guards[t := Some(s.handles[h].target)])
    case AtomicCas(t, h, current, v) =>
      if s.handles[h].target == s.handles[current].target then SetTarget(s, h, s.handles[v].target) else s
    case AtomicRegister(t, k) =>
      var s1 := AddHandle(s, k, s.guards[t].value, false);
      s1.(guards := s.guards[t := None])
    case GuardDrop(t) => s.(guards := s.guards - {t})
    case UserSync => s.(mail := s.mail + [SyncUp(s.tickets)], tickets := s.tickets + 1)
  }

  ghost function CollectorApply(s: State, e: CollectorStep): State
    requires CollectorEnabled(s, e)
  {
    match e
    case Begin =>
      s.(phase := Syncing(s.tickets), mail := s.mail + [SyncUp(s.tickets)], tickets := s.tickets + 1)
    case SyncReturn => s.(phase := DataPass(TrackedData(s), {}))
    case Note(d) => Noted(s, d)
    case LockData(d) => Visited(s, d)
    case DataPassEnd => s.(phase := HandlePass(RegisteredHandles(s), {}))
    case SeeHandle(h) =>
      s.(phase := HandlePass(s.phase.todo - {h},
                             if s.handles[h].stamp != s.epoch then s.phase.found + {h} else s.phase.found))
    case HandlePassEnd(n) =>
      s.(phase := Mark(multiset(s.phase.found), seq(n, _ => Resting), s.phase.found, MarkedData(s), multiset{}))
    case MarkEnd => s.(phase := Release)
    case ReleaseOne(d) => SetLock(s, d, Shared(0))
    case ReleaseEnd => s.(phase := Sweep(TrackedData(s), {}))
    case SweepVisit(d) => SweptOver(s, d)
    case SweepEnd => s.(phase := Finish, mail := s.mail + [Batch(s.phase.batch)])
    case Bump => s.(phase := Quiet, epoch := s.epoch + 1)
  }

  ghost function WorkerApply(s: State, e: WorkerStep): State
    requires WorkerEnabled(s, e)
  {
    match e
    case Take(i, h) =>
      s.(phase := s.phase.(queue := s.phase.queue - multiset{h}, workers := s.phase.workers[i := Taken(h)]))
    case LoadMark(i) =>
      var h := s.phase.workers[i].handle;
      SetWorker(s, i, if s.data[s.handles[h].target].mark == 0 then Resting else Loaded(h))
    case SwapMark(i) =>
      var d := s.handles[s.phase.workers[i].handle].target;
      if s.data[d].mark == s.epoch then SetWorker(s, i, Resting)
      else
        var s1 := SetMark(s, d, s.epoch);
        s1.(phase := s.phase.(workers := s.phase.workers[i := Scanning(d, ReportedIn(s, d), None)],
                              scans := s.phase.scans + multiset{d}))
    case Check(i, h) =>
      var w := s.phase.workers[i];
      SetWorker(s, i, Scanning(w.data, w.rem - {h},
                               if s.data[s.handles[h].target].mark != s.epoch then Some(h) else None))
    case Enqueue(i) =>
      var w := s.phase.workers[i];
      s.(phase := s.phase.(queue := s.phase.queue + multiset{w.pend.value},
                           workers := s.phase.workers[i := Scanning(w.data, w.rem, None)]))
    case ScanEnd(i) => SetWorker(s, i, Resting)
  }

  ghost function DropperApply(s: State, e: DropperStep): State
    requires DropperEnabled(s, e)
  {
    match e
    case Receive =>
      var first := s.mail[0];
      if first.Batch? then s.(mail := s.mail[1..], work := Flagging(first.batch, first.batch))
      else s.(mail := s.mail[1..], acked := s.acked + {first.ticket})
    case FlagOne(d) =>
      var s1 := SetFlag(s, d, true);
      s1.(work := Flagging(s.work.batch, s.work.left - {d}))
    case FlagEnd => s.(work := Dropping(s.work.batch, s.work.batch))
    case Invalidate(d, h) => SetOwner(s, h, Gone)
    case DropGet(d, h) =>
      var t := s.handles[h].target;
      SetLock(s, t, Shared(s.data[t].lock.n + 1))
    case Free(d) =>
      var s1 := SetStatus(s, d, Freed);
      s1.(work := Dropping(s.work.batch, s.work.left - {d}))
    case BatchEnd => s.(work := NoWork)
  }

  ghost function Apply(s: State, e: Step): State
    requires Enabled(s, e)
  {
    match e
    case ByProgram(p) => ProgramApply(s, p)
    case ByCollector(c) => CollectorApply(s, c)
    case ByWorker(w) => WorkerApply(s, w)
    case ByDropper(d) => DropperApply(s, d)
  }

  /** The one thing asked of the program: a handle that was in the list when the handle
      pass began is not dropped before the pass has reached it. */
  predicate DropTimely(s: State, e: Step) {
    e.ByProgram? && e.program.Drop? && s.phase.HandlePass? ==> e.program.h !in s.phase.todo
  }

  ghost predicate Next(s: State, e: Step, s': State) {
    Enabled(s, e) && DropTimely(s, e) && s' == Apply(s, e)
  }
}
