// The mark phase: what it marks does not depend on the schedule, and it ends.
module MarkTheorems {
  import opened Basics
  import opened Heap
  import opened Steps
  import opened Invariant
  import opened ProgramProofs
  import opened MarkProofs
  import opened Theorems

  /** In use when the data pass came by, or not new and reached from a root through what
      locked allocations report. */
  ghost predicate Traceable(s: State, d: DataId)
    requires s.phase.Mark? && HandleInv(s)
  {
    forall S | SeedClosed(s, S) :: d in S
  }

  /** When the queue is empty and the workers rest, exactly the traceable data is
      marked. */
  lemma MarkedIsTraceable(s: State)
    requires Inv(s) && CollectorEnabled(s, MarkEnd)
    ensures forall d :: d in MarkedData(s) <==> Traceable(s, d)
  {
    assert SeedClosed(s, MarkedData(s)) by {
      forall h | h in s.phase.roots && h in s.handles && s.data[s.handles[h].target].mark != 0
        ensures s.handles[h].target in MarkedData(s)
      {
        assert Kept(s, s.handles[h].target) || Pending(s, h);
      }
      forall h |
        && h in s.handles && LockedIn(s, s.handles[h].owner) && s.handles[h].owner.data in MarkedData(s)
        && s.data[s.handles[h].target].mark != 0
        ensures s.handles[h].target in MarkedData(s)
      {
        assert Kept(s, s.handles[h].target) || Pending(s, h);
      }
    }
  }

  // ---- what tracing depends on does not change

  ghost function LockedHandles(s: State): set<HandleId> {
    set h | h in s.handles && LockedIn(s, s.handles[h].owner)
  }

  /** The part of the state that tracing reads. */
  ghost predicate SameGraph(s: State, s': State) {
    && s.phase.Mark? && s'.phase.Mark? && s'.epoch == s.epoch
    && s'.phase.roots == s.phase.roots && s'.phase.inUse == s.phase.inUse
    && (forall d | d in s.data :: d in s'.data && (s'.data[d].mark == 0 <==> s.data[d].mark == 0))
    && (forall h | h in s.handles :: h in s'.handles && s'.handles[h].target == s.handles[h].target)
    && (forall h | h in s'.handles && LockedIn(s', s'.handles[h].owner) ::
          h in s.handles && s'.handles[h].owner == s.handles[h].owner && LockedIn(s, s.handles[h].owner))
    && (forall h | h in s.handles && LockedIn(s, s.handles[h].owner) ::
          s'.handles[h].owner == s.handles[h].owner && LockedIn(s', s'.handles[h].owner))
  }

  lemma UndisturbedGraph(s: State, s': State)
    requires Shape(s) && s.phase.Mark? && Undisturbed(s, s')
    ensures SameGraph(s, s')
  {
    SameDoomed(s, s');
    forall h | h in s.handles
      ensures s'.handles[h].target == s.handles[h].target
      ensures LockedIn(s, s.handles[h].owner) || LockedIn(s', s'.handles[h].owner) ==>
              s'.handles[h].owner == s.handles[h].owner
    {
      assert HandleStep(s, s', h);
    }
    forall d | d in s.data ensures s'.data[d].mark == s.data[d].mark {
      assert DatumStep(s, s.data[d], s'.data[d]);
    }
  }

  lemma WorkerGraph(s: State, w: WorkerStep)
    requires Inv(s) && WorkerEnabled(s, w)
    ensures SameGraph(s, WorkerApply(s, w))
  {
    if w.SwapMark? && s.data[s.handles[s.phase.workers[w.i].handle].target].mark != s.epoch {
      UnmarkedIsLocked(s, w.i);
      MarksGraph(s, WorkerApply(s, w), w.i, s.handles[s.phase.workers[w.i].handle].target);
    } else {
      SimpleStepCounts(s, w);
      SimpleGraph(s, WorkerApply(s, w));
    }
    hide Inv, SameGraph;
  }

  lemma SimpleGraph(s: State, s': State)
    requires s.phase.Mark? && s'.phase.Mark? && s' == s.(phase := s'.phase)
    requires s'.phase.roots == s.phase.roots && s'.phase.inUse == s.phase.inUse
    ensures SameGraph(s, s') && Unmarked(s') == Unmarked(s) && LockedHandles(s') == LockedHandles(s)
  {
  }

  lemma MarksGraph(s: State, s': State, i: nat, d: DataId)
    requires s.epoch >= 2 && Marks(s, s', i, d)
    ensures SameGraph(s, s') && LockedHandles(s') == LockedHandles(s)
    ensures d in Unmarked(s) && Unmarked(s') == Unmarked(s) - {d}
  {
    hide WorkerEnabled, WorkerApply;
  }

  lemma CollectorLeavesMark(s: State, c: CollectorStep)
    requires s.phase.Mark? && CollectorEnabled(s, c)
    ensures !CollectorApply(s, c).phase.Mark?
  {
  }

  lemma UserSyncChange(s: State, s': State)
    requires ProgramEnabled(s, UserSync) && s' == ProgramApply(s, UserSync)
    ensures s' == s.(mail := s'.mail, tickets := s'.tickets)
  {
  }

  /** While data is being marked, nothing is being dropped. */
  lemma ReceiveChange(s: State, s': State, d: DropperStep)
    requires Post(s) && s.phase.Mark? && DropperEnabled(s, d) && s' == DropperApply(s, d)
    ensures s' == s.(mail := s'.mail, work := s'.work, acked := s'.acked)
  {
    assert s.work.NoWork?;
  }

  /** Everything but the workers leaves the tracing undisturbed. */
  lemma OthersUndisturbed(s: State, e: Step, s': State)
    requires Inv(s) && Next(s, e, s') && s.phase.Mark? && s'.phase.Mark? && !e.ByWorker?
    ensures Undisturbed(s, s')
  {
    hide Shape, Safe, Post, Tracing, ProgramApply, Undisturbed, Legal;
    match e {
      case ByProgram(p) =>
        if p.UserSync? { UserSyncChange(s, s'); MailUndisturbed(s, s'); } else { ProgramUndisturbed(s, p); }
      case ByCollector(c) => CollectorLeavesMark(s, c);
      case ByDropper(d) => ReceiveChange(s, s', d); MailUndisturbed(s, s');
    }
  }

  lemma GraphStays(s: State, e: Step, s': State)
    requires Inv(s) && Next(s, e, s') && s.phase.Mark? && s'.phase.Mark?
    ensures SameGraph(s, s')
  {
    hide WorkerEnabled, WorkerApply, ProgramEnabled, ProgramApply;
    hide CollectorEnabled, CollectorApply, DropperEnabled, DropperApply;
    if e.ByWorker? {
      WorkerGraph(s, e.worker);
    } else {
      OthersUndisturbed(s, e, s');
      UndisturbedGraph(s, s');
    }
    hide Inv, SameGraph, Undisturbed;
  }

  lemma SameSeeds(s: State, s': State, S: set<DataId>)
    requires HandleInv(s) && HandleInv(s') && SameGraph(s, s') && s.phase.roots <= s.handles.Keys
    ensures SeedClosed(s, S) <==> SeedClosed(s', S)
  {
  }

  lemma SameTraceable(s: State, s': State, d: DataId)
    requires Inv(s) && Inv(s') && SameGraph(s, s')
    ensures Traceable(s, d) <==> Traceable(s', d)
  {
    assert s.phase.roots <= s.handles.Keys;
    forall S ensures SeedClosed(s, S) <==> SeedClosed(s', S) {
      SameSeeds(s, s', S);
    }
    hide Inv, SameGraph;
  }

  ghost predicate MarkingFrom(states: seq<State>, i: nat, j: nat) {
    i <= j < |states| && forall k | i <= k <= j :: states[k].phase.Mark?
  }

  lemma SegmentStep(states: seq<State>, steps: seq<Step>, i: nat, j: nat)
    requires Run(states, steps) && MarkingFrom(states, i, j) && i < j
    ensures MarkingFrom(states, i, j - 1) && |states| == |steps| + 1 && j < |states|
    ensures Inv(states[j-1]) && Inv(states[j]) && Next(states[j-1], steps[j-1], states[j])
    ensures states[j-1].phase.Mark? && states[j].phase.Mark?
  {
    hide Inv, Next;
    RunStep(states, steps, j - 1);
  }

  lemma {:induction false} TraceableStays(states: seq<State>, steps: seq<Step>, i: nat, j: nat, d: DataId)
    requires Run(states, steps) && i <= j < |states| == |steps| + 1 && MarkingFrom(states, i, j)
    requires HandleInv(states[i]) && HandleInv(states[j])
    ensures Traceable(states[i], d) <==> Traceable(states[j], d)
  {
    hide Run, MarkingFrom, Next, SameGraph, Tracing, Safe, Post, DatumInv, MarkInv, StampInv, Traceable;
    if i < j {
      SegmentStep(states, steps, i, j);
      TraceableStays(states, steps, i, j - 1, d);
      GraphStays(states[j-1], steps[j-1], states[j]);
      SameTraceable(states[j-1], states[j], d);
    }
  }

  /** Schedule independence: what is marked at the end is determined by the state in
      which marking began, whatever workers and program do in between. */
  lemma MarkResult(states: seq<State>, steps: seq<Step>, i: nat, j: nat)
    requires Run(states, steps) && MarkingFrom(states, i, j) && CollectorEnabled(states[j], MarkEnd)
    ensures HandleInv(states[i])
    ensures forall d :: d in MarkedData(states[j]) <==> Traceable(states[i], d)
  {
    RunInv(states, steps, i);
    RunInv(states, steps, j);
    MarkedIsTraceable(states[j]);
    forall d ensures d in MarkedData(states[j]) <==> Traceable(states[i], d) {
      TraceableStays(states, steps, i, j, d);
    }
  }

  /** Two mark phases that begin with the same graph, with any numbers of workers and any
      schedules, mark the same data. */
  lemma ScheduleIndependent(a: seq<State>, ea: seq<Step>, i: nat, j: nat,
                            b: seq<State>, eb: seq<Step>, k: nat, l: nat)
    requires Run(a, ea) && MarkingFrom(a, i, j) && CollectorEnabled(a[j], MarkEnd)
    requires Run(b, eb) && MarkingFrom(b, k, l) && CollectorEnabled(b[l], MarkEnd)
    requires SameGraph(a[i], b[k])
    ensures MarkedData(a[j]) == MarkedData(b[l])
  {
    RunInv(a, ea, i);
    RunInv(b, eb, k);
    MarkResult(a, ea, i, j);
    MarkResult(b, eb, k, l);
    hide Run, MarkingFrom, Inv, Traceable, SameGraph;
    forall d ensures d in MarkedData(a[j]) <==> d in MarkedData(b[l]) {
      SameTraceable(a[i], b[k], d);
    }
  }

  // ---- termination

  /** Steps a worker still has to make without marking anything new. */
  ghost function Load(w: Worker): nat {
    match w
    case Resting => 0
    case Taken(_) => 3
    case Loaded(_) => 2
    case Scanning(_, rem, pend) => 1 + 6 * |rem| + if pend.Some? then 5 else 0
  }

  ghost function Loads(workers: seq<Worker>): nat {
    if workers == [] then 0 else Load(workers[0]) + Loads(workers[1..])
  }

  lemma {:induction false} LoadsUpdate(workers: seq<Worker>, i: nat, w: Worker)
    requires i < |workers|
    ensures Loads(workers[i := w]) + Load(workers[i]) == Loads(workers) + Load(w)
  {
    if i == 0 {
      assert workers[0 := w][1..] == workers[1..];
    } else {
      assert workers[i := w][1..] == workers[1..][i-1 := w];
      LoadsUpdate(workers[1..], i - 1, w);
    }
  }

  ghost function Unmarked(s: State): set<DataId> {
    set d | d in s.data && s.data[d].lock == Exclusive && s.data[d].mark != s.epoch
  }

  /** Decreases with every step of a worker and with no other step. */
  ghost function Remaining(s: State): nat
    requires s.phase.Mark?
  {
    |Unmarked(s)| * (6 * |LockedHandles(s)| + 1) + 4 * |s.phase.queue| + Loads(s.phase.workers)
  }

  lemma SimpleStepCounts(s: State, e: WorkerStep)
    requires WorkerEnabled(s, e)
    requires !e.SwapMark? || s.data[s.handles[s.phase.workers[e.i].handle].target].mark == s.epoch
    ensures var s' := WorkerApply(s, e);
            && s'.phase.Mark? && s' == s.(phase := s'.phase)
            && s'.phase.roots == s.phase.roots && s'.phase.inUse == s.phase.inUse
            && 4 * |s'.phase.queue| + Loads(s'.phase.workers) < 4 * |s.phase.queue| + Loads(s.phase.workers)
  {
    var s' := WorkerApply(s, e);
    LoadsUpdate(s.phase.workers, e.i, s'.phase.workers[e.i]);
  }

  lemma MarkLoads(s: State, i: nat)
    requires WorkerEnabled(s, SwapMark(i))
    requires s.data[s.handles[s.phase.workers[i].handle].target].mark != s.epoch
    ensures var s' := WorkerApply(s, SwapMark(i));
            var d := s.handles[s.phase.workers[i].handle].target;
            && s'.phase.Mark? && s'.phase.queue == s.phase.queue
            && Loads(s'.phase.workers) + 2 == Loads(s.phase.workers) + 1 + 6 * |ReportedIn(s, d)|
  {
    var s' := WorkerApply(s, SwapMark(i));
    LoadsUpdate(s.phase.workers, i, s'.phase.workers[i]);
  }

  lemma MarkShrinks(s: State, i: nat)
    requires Core(s) && WorkerEnabled(s, SwapMark(i))
    requires s.data[s.handles[s.phase.workers[i].handle].target].mark != s.epoch
    ensures var s', d := WorkerApply(s, SwapMark(i)), s.handles[s.phase.workers[i].handle].target;
            && d in Unmarked(s) && Unmarked(s') == Unmarked(s) - {d}
            && LockedHandles(s') == LockedHandles(s)
            && ReportedIn(s, d) <= LockedHandles(s)
  {
    var s' := WorkerApply(s, SwapMark(i));
    var d := s.handles[s.phase.workers[i].handle].target;
    UnmarkedIsLocked(s, i);
    MarksGraph(s, s', i, d);
    hide Core, SameGraph;
  }

  lemma MarkStepCounts(s: State, i: nat)
    requires Core(s) && WorkerEnabled(s, SwapMark(i))
    requires s.data[s.handles[s.phase.workers[i].handle].target].mark != s.epoch
    ensures WorkerApply(s, SwapMark(i)).phase.Mark?
    ensures Remaining(WorkerApply(s, SwapMark(i))) < Remaining(s)
  {
    hide Core, WorkerApply, Unmarked, LockedHandles, ReportedIn, Loads;
    var d := s.handles[s.phase.workers[i].handle].target;
    MarkShrinks(s, i);
    MarkLoads(s, i);
    SubsetSize(ReportedIn(s, d), LockedHandles(s));
    Weigh(|Unmarked(s)|, 6 * |LockedHandles(s)| + 1);
  }

  lemma Weigh(a: nat, n: nat)
    requires a > 0
    ensures (a - 1) * n + n == a * n
  {
  }

  /** Every step of a worker brings the end of marking nearer. */
  lemma WorkerAdvances(s: State, e: WorkerStep)
    requires Core(s) && WorkerEnabled(s, e)
    ensures WorkerApply(s, e).phase.Mark? && Remaining(WorkerApply(s, e)) < Remaining(s)
  {
    hide Core, WorkerApply, SameGraph, Unmarked, LockedHandles, Loads;
    if e.SwapMark? && s.data[s.handles[s.phase.workers[e.i].handle].target].mark != s.epoch {
      MarkStepCounts(s, e.i);
    } else {
      SimpleStepCounts(s, e);
      SimpleGraph(s, WorkerApply(s, e));
    }
  }

  lemma InvCore(s: State)
    requires Inv(s)
    ensures Core(s)
  {
    hide Shape, Safe, Post, PendingInv, ScanInv;
  }

  lemma InvShape(s: State)
    requires Inv(s)
    ensures Shape(s)
  {
    hide Shape;
  }

  /** No other step takes it farther away. */
  lemma OthersNeutral(s: State, e: Step, s': State)
    requires Inv(s) && Next(s, e, s') && s.phase.Mark? && s'.phase.Mark? && !e.ByWorker?
    ensures Remaining(s') == Remaining(s)
  {
    hide Inv, Shape, Next, Undisturbed;
    InvShape(s);
    OthersUndisturbed(s, e, s');
    SameUnmarked(s, s');
  }

  lemma SameUnmarked(s: State, s': State)
    requires Shape(s) && s.phase.Mark? && Undisturbed(s, s')
    ensures Unmarked(s') == Unmarked(s) && LockedHandles(s') == LockedHandles(s) && s'.phase == s.phase
  {
  }

  lemma OneStepCounts(s: State, e: Step, s': State)
    requires Inv(s) && Next(s, e, s') && s.phase.Mark? && s'.phase.Mark?
    ensures Remaining(s') + (if e.ByWorker? then 1 else 0) <= Remaining(s)
  {
    hide WorkerEnabled, WorkerApply, ProgramEnabled, ProgramApply;
    hide CollectorEnabled, CollectorApply, DropperEnabled, DropperApply;
    hide Inv, Core;
    if e.ByWorker? {
      InvCore(s);
      WorkerAdvances(s, e.worker);
    } else {
      OthersNeutral(s, e, s');
    }
  }

  ghost function WorkerSteps(steps: seq<Step>, i: nat, j: nat): nat
    requires i <= j <= |steps|
  {
    if i == j then 0 else WorkerSteps(steps, i, j - 1) + if steps[j-1].ByWorker? then 1 else 0
  }

  /** The mark phase ends: the number of worker steps in it is bounded by what was there
      to do at its beginning, in every run. */
  lemma {:induction false} MarkingEnds(states: seq<State>, steps: seq<Step>, i: nat, j: nat)
    requires Run(states, steps) && i <= j < |states| == |steps| + 1 && MarkingFrom(states, i, j)
    ensures WorkerSteps(steps, i, j) + Remaining(states[j]) <= Remaining(states[i])
  {
    hide Run, MarkingFrom, Inv, Next;
    if i < j {
      SegmentStep(states, steps, i, j);
      MarkingEnds(states, steps, i, j - 1);
      OneStepCounts(states[j-1], steps[j-1], states[j]);
    }
  }

  /** And it cannot get stuck: as long as it has not ended, some worker can move. */
  lemma MarkingCanGoOn(s: State) returns (w: WorkerStep)
    requires Core(s) && s.phase.Mark? && s.phase.workers != [] && !CollectorEnabled(s, MarkEnd)
    ensures WorkerEnabled(s, w)
  {
    if i :| 0 <= i < |s.phase.workers| && s.phase.workers[i] != Resting {
      var v := s.phase.workers[i];
      assert ScanOk(s, v);
      match v
      case Taken(h) =>
        PendingSplit(s, i, h);
        assert Pending(s, h);
        w := LoadMark(i);
      case Loaded(h) => w := SwapMark(i);
      case Scanning(_, rem, pend) =>
        if pend.Some? {
          w := Enqueue(i);
        } else if h :| h in rem {
          w := Check(i, h);
        } else {
          w := ScanEnd(i);
        }
    } else {
      var h :| h in s.phase.queue;
      w := Take(0, h);
    }
  }
}
