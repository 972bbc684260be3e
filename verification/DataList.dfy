// The collector and its data list together: every insert, count and sweep verdict is one
// joint step of the heap (Steps) and of the slot-level list (ChunkedList). What Trigger
// asks of the sweep then follows from the collector's safety.
module DataList {
  import opened Basics
  import H = Heap
  import S = Steps
  import I = Invariant
  import T = Theorems
  import L = ChunkedList
  import C = ChunkedUpdates
  import G = Trigger

  datatype Joint = Joint(heap: H.State, gc: G.Gc)

  datatype Step = OnHeap(e: S.Step) | OnList(f: L.Step) | OnBoth(e: S.Step, f: L.Step)

  /** Steps of the heap that the data list takes part in. */
  predicate Shared(e: S.Step) {
    || (e.ByProgram? && (e.program.Track? || e.program.CountUp?))
    || (e.ByCollector? && e.collector.SweepVisit?)
  }

  /** What the collecting thread's step is for the count: the sweep begins and ends, and the
      count is recorded before the collection number goes up. */
  function Marks(e: S.Step): Option<G.GcStep> {
    if !e.ByCollector? then None
    else match e.collector
      case ReleaseEnd => Some(G.BeginSweep)
      case SweepEnd => Some(G.EndSweep)
      case Bump => Some(G.Record)
      case _ => None
  }

  ghost predicate HeapEnabled(j: Joint, e: S.Step) {
    S.Enabled(j.heap, e) && S.DropTimely(j.heap, e) && (Marks(e).Some? ==> G.GcEnabled(j.gc, Marks(e).value))
  }

  ghost predicate Enabled(j: Joint, e: Step) {
    match e
    case OnHeap(h) => HeapEnabled(j, h) && !Shared(h)
    case OnList(f) =>
      && L.Enabled(j.gc.list, f) && !f.Store? && !f.CountUp? && !f.RemoveStart?
      && (f.RetainStart? ==> j.gc.phase == G.Sweeping)
      && (f.RetainLoad? ==> j.gc.list.slots[j.gc.list.pcs[f.t].p] == None)
    case OnBoth(h, f) =>
      && HeapEnabled(j, h) && L.Enabled(j.gc.list, f)
      && match f
         case Store(t) => h.ByProgram? && h.program.Track? && h.program.d == j.gc.list.pcs[t].x
         case CountUp(t) => h == S.ByProgram(S.CountUp(j.gc.list.pcs[t].x))
         case RetainLoad(t, keep) =>
           && h.ByCollector? && h.collector.SweepVisit?
           && j.gc.list.slots[j.gc.list.pcs[t].p] == Some(h.collector.d)
           && keep == Keeps(j.heap, h.collector.d)
         case _ => false
  }

  /** The verdict of the sweep. */
  predicate Keeps(s: H.State, d: H.DataId) {
    d in s.data && (s.data[d].mark == 0 || s.data[d].mark == s.epoch)
  }

  ghost function Apply(j: Joint, e: Step): Joint
    requires Enabled(j, e)
  {
    match e
    case OnHeap(h) =>
      Joint(S.Apply(j.heap, h), if Marks(h).Some? then G.GcApply(j.gc, Marks(h).value) else j.gc)
    case OnList(f) => Joint(j.heap, j.gc.(list := L.Apply(j.gc.list, f)))
    case OnBoth(h, f) => Joint(S.Apply(j.heap, h), j.gc.(list := L.Apply(j.gc.list, f)))
  }

  /** Whatever is stored and not counted is being counted in the heap; whatever is in the
      list has been counted or is stored by someone. */
  ghost predicate Coupled(j: Joint) {
    && (forall t | t in j.gc.list.pcs && j.gc.list.pcs[t].Stored? :: j.gc.list.pcs[t].x in j.heap.counting)
    && (forall x | x in L.Holding(j.gc.list) :: x in j.gc.list.issued || C.StoredBySome(j.gc.list, x))
  }

  ghost predicate Inv(j: Joint) {
    I.Inv(j.heap) && T.CountInv(j.heap) && G.GcInv(j.gc) && Coupled(j)
  }

  // ---- what Trigger asks of the sweep

  lemma CountingIsKept(s: H.State, d: H.DataId)
    requires I.Inv(s) && T.CountInv(s) && d in s.counting && s.phase.Sweep?
    requires d in s.data && s.data[d].status == H.Tracked
    ensures Keeps(s, d)
  {
    assert H.Live(s, d) by {
      forall Z | H.LiveClosed(s, Z) ensures d in Z { assert H.HeldBy(s, s.counting[d], Z); }
    }
    I.LiveNotDoomed(s, d);
  }

  /** Every step of the list in a joint run is one that the trigger's argument allows. */
  lemma StepsAreAllowed(j: Joint, e: Step)
    requires Inv(j) && Enabled(j, e) && !e.OnHeap?
    ensures G.Allowed(j.gc, e.f)
  {
    hide I.Inv, L.Inv;
    if e.OnBoth? && e.f.RetainLoad? && !e.f.keep {
      var d := e.e.collector.d;
      assert d in L.Holding(j.gc.list);
      if d !in j.gc.list.issued {
        CountingIsKept(j.heap, d);
      }
    }
  }

  // ---- the coupling is kept

  lemma CountingStays(s: H.State, e: S.Step)
    requires S.Enabled(s, e) && !Shared(e)
    ensures S.Apply(s, e).counting == s.counting
  {
    match e {
      case ByProgram(p) => hide S.CollectorApply, S.WorkerApply, S.DropperApply;
      case ByCollector(c) => CollectorCounting(s, c); hide S.CollectorEnabled, S.CollectorApply;
      case ByWorker(w) => WorkerCounting(s, w); hide S.WorkerEnabled, S.WorkerApply;
      case ByDropper(d) => DropperCounting(s, d); hide S.DropperEnabled, S.DropperApply;
    }
  }

  lemma CollectorCounting(s: H.State, c: S.CollectorStep)
    requires S.CollectorEnabled(s, c)
    ensures S.CollectorApply(s, c).counting == s.counting
  {
  }

  lemma WorkerCounting(s: H.State, w: S.WorkerStep)
    requires S.WorkerEnabled(s, w)
    ensures S.WorkerApply(s, w).counting == s.counting
  {
  }

  lemma DropperCounting(s: H.State, p: S.DropperStep)
    requires S.DropperEnabled(s, p)
    ensures S.DropperApply(s, p).counting == s.counting
  {
  }

  lemma SharedCounting(s: H.State, e: S.Step)
    requires S.Enabled(s, e) && Shared(e)
    ensures S.Apply(s, e).counting ==
              if e.ByCollector? then s.counting
              else if e.program.Track? then s.counting[e.program.d := e.program.h]
              else s.counting - {e.program.d}
  {
  }

  lemma ListStep(s: L.State, f: L.Step)
    requires L.Inv(s) && L.Enabled(s, f)
    requires forall x | x in L.Holding(s) :: x in s.issued || C.StoredBySome(s, x)
    ensures var s' := L.Apply(s, f);
            forall x | x in L.Holding(s') :: x in s'.issued || C.StoredBySome(s', x)
  {
    hide L.Inv, L.Apply, L.Holding, L.After, L.Effect;
    var s' := L.Apply(s, f);
    L.NewlyHeld(s, f);
    L.Tables(s, f);
    L.OwnPc(s, f);
    L.Counters(s, f);
    forall x | x in L.Holding(s') ensures x in s'.issued || C.StoredBySome(s', x) {
      if f.Store? && x == s.pcs[f.t].x {
        L.OwnItem(s, f);
        assert s'.pcs[f.t].Stored? && s'.pcs[f.t].x == x;
      } else if x !in s.issued {
        var t: L.ThreadId :| t in s.pcs && s.pcs[t].Stored? && s.pcs[t].x == x;
        if t != f.t {
          L.OthersStay(s, f, t);
          assert t in s'.pcs && s'.pcs[t].Stored? && s'.pcs[t].x == x;
        }
      }
    }
  }

  lemma StoredStep(s: L.State, f: L.Step, u: L.ThreadId)
    requires L.Inv(s) && L.Enabled(s, f) && u in L.Apply(s, f).pcs && L.Apply(s, f).pcs[u].Stored?
    ensures if u == f.t then
              f.Store? && L.Apply(s, f).pcs[u].x == s.pcs[u].x
            else
              && u in s.pcs && s.pcs[u] == L.Apply(s, f).pcs[u]
              && (f.CountUp? ==> s.pcs[u].x != s.pcs[f.t].x)
  {
    if u == f.t { L.OwnItem(s, f); } else { L.OthersStay(s, f, u); }
  }

  lemma CountingStep(j: Joint, e: Step)
    requires L.Inv(j.gc.list) && Coupled(j) && Enabled(j, e) && !e.OnHeap?
    ensures var j' := Apply(j, e);
            forall t | t in j'.gc.list.pcs && j'.gc.list.pcs[t].Stored? :: j'.gc.list.pcs[t].x in j'.heap.counting
  {
    hide L.Inv, L.Apply, S.Enabled, S.Apply, S.DropTimely;
    var j' := Apply(j, e);
    if e.OnBoth? { SharedCounting(j.heap, e.e); }
    forall t | t in j'.gc.list.pcs && j'.gc.list.pcs[t].Stored? ensures j'.gc.list.pcs[t].x in j'.heap.counting {
      StoredStep(j.gc.list, e.f, t);
    }
  }

  lemma CoupledKept(j: Joint, e: Step)
    requires Inv(j) && Enabled(j, e)
    ensures Coupled(Apply(j, e))
  {
    hide I.Inv, T.CountInv, L.Inv, L.Apply, L.Enabled, L.Holding, S.Enabled, S.Apply, S.DropTimely, C.StoredBySome;
    if e.OnHeap? {
      CountingStays(j.heap, e.e);
    } else {
      CountingStep(j, e);
      ListStep(j.gc.list, e.f);
    }
  }

  lemma StepKeeps(j: Joint, e: Step)
    requires Inv(j) && Enabled(j, e) && |L.Holding(j.gc.list)| < WORD
    ensures Inv(Apply(j, e))
  {
    CoupledKept(j, e);
    hide I.Inv, T.CountInv, L.Inv, L.Apply, L.Enabled, L.Holding, S.Enabled, S.Apply, Coupled, G.GcInv;
    if e.OnHeap? {
      HeapKept(j.heap, e.e);
      if Marks(e.e).Some? { G.GcStepKeeps(j.gc, Marks(e.e).value); }
    } else {
      StepsAreAllowed(j, e);
      if e.OnBoth? { HeapKept(j.heap, e.e); }
      G.GcStepKeeps(j.gc, G.OnList(e.f));
    }
  }

  lemma HeapKept(s: H.State, e: S.Step)
    requires I.Inv(s) && T.CountInv(s) && S.Enabled(s, e) && S.DropTimely(s, e)
    ensures I.Inv(S.Apply(s, e)) && T.CountInv(S.Apply(s, e))
  {
    hide I.Inv, T.CountInv, S.Enabled, S.Apply, S.DropTimely;
    T.CountStep(s, e);
    T.StepInv(s, e, S.Apply(s, e));
  }

  // ---- every joint run

  ghost predicate Next(j: Joint, e: Step, j': Joint) {
    Enabled(j, e) && j' == Apply(j, e) && |L.Holding(j'.gc.list)| < WORD
  }

  ghost predicate Run(states: seq<Joint>, steps: seq<Step>) {
    && |states| == |steps| + 1
    && states[0].heap == H.INIT && L.Init(states[0].gc.list)
    && states[0].gc.phase == G.Open && states[0].gc.recorded == 0
    && forall i | 0 <= i < |steps| :: Next(states[i], steps[i], states[i+1])
  }

  lemma Begins(j: Joint)
    requires j.heap == H.INIT && L.Init(j.gc.list) && j.gc.phase == G.Open && j.gc.recorded == 0
    ensures Inv(j) && |L.Holding(j.gc.list)| < WORD
  {
    I.InitInv();
    L.InitInv(j.gc.list);
    G.NothingYet(j.gc.list);
    hide I.Inv, L.Inv, L.Holding, L.Init;
  }

  lemma {:induction false} RunInv(states: seq<Joint>, steps: seq<Step>, i: nat)
    requires Run(states, steps) && i < |states|
    ensures Inv(states[i]) && |L.Holding(states[i].gc.list)| < WORD
  {
    hide Inv, Enabled, Apply, L.Holding, L.Init;
    if i == 0 {
      Begins(states[0]);
    } else {
      RunInv(states, steps, i - 1);
      assert Next(states[i-1], steps[i-1], states[i-1+1]);
      StepKeeps(states[i-1], steps[i-1]);
    }
  }

  /** No verdict of a sweep is against data whose insertion is not counted yet. */
  lemma SweepSparesUncounted(states: seq<Joint>, steps: seq<Step>, i: nat, x: L.Item)
    requires Run(states, steps) && i < |steps| && steps[i].OnBoth? && steps[i].f.RetainLoad? && !steps[i].f.keep
    requires steps[i].e == S.ByCollector(S.SweepVisit(x))
    ensures x in states[i].gc.list.issued
  {
    hide Inv, Apply, S.Enabled, L.Enabled, L.Holding;
    RunInv(states, steps, i);
    assert Next(states[i], steps[i], states[i+1]);
    StepsAreAllowed(states[i], steps[i]);
  }

  /** In every run of the collector with its data list, whenever a check can run, the data
      count is at least the count recorded after the last collection. */
  lemma CountsNeverCross(states: seq<Joint>, steps: seq<Step>, i: nat)
    requires Run(states, steps) && i < |states| && states[i].gc.phase == G.Open
    ensures states[i].gc.recorded <= states[i].gc.list.estimate < WORD
  {
    RunInv(states, steps, i);
    G.InRange(states[i].gc);
    hide I.Inv, L.Inv, L.Holding;
  }
}
