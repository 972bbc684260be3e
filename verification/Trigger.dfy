// When a background check starts a collection, and why its subtraction of counts is
// sound: the data list shrinks only in a sweep, and the count is recorded after it.
module Trigger {
  import opened Basics
  import opened ChunkedList

  const MIN_ALLOCATIONS: real := 512.0 * 1.3

  class GcTrigger {
    var allocationsTriggerPercent: real
    var handleDeficitTriggerPercent: real
    var dataCountAtLastCollection: nat

    constructor ()
      ensures allocationsTriggerPercent == 0.75 && handleDeficitTriggerPercent == 0.9 && dataCountAtLastCollection == 0
    {
      allocationsTriggerPercent, handleDeficitTriggerPercent, dataCountAtLastCollection := 0.75, 0.9, 0;
    }

    method SetTriggerPercent(p: real)
      modifies `allocationsTriggerPercent
      ensures allocationsTriggerPercent == p
    {
      allocationsTriggerPercent := p;
    }

    method SetDataCountAfterCollection(n: nat)
      modifies `dataCountAtLastCollection
      ensures dataCountAtLastCollection == n
    {
      dataCountAtLastCollection := n;
    }

    predicate Enough(dataCount: nat) {
      dataCount as real >= MIN_ALLOCATIONS
    }

    predicate FewHandles(dataCount: nat, handleCount: nat)
      reads `handleDeficitTriggerPercent
    {
      handleCount as real <= handleDeficitTriggerPercent * dataCount as real
    }

    /** Growth against the last collection by the configured share. Counts that have crossed
        make the machine's subtraction an enormous number. */
    predicate Grown(dataCount: nat)
      reads `dataCountAtLastCollection, `allocationsTriggerPercent
    {
      (if dataCountAtLastCollection <= dataCount then dataCount else dataCount + WORD) as real
        >= dataCountAtLastCollection as real * (1.0 + allocationsTriggerPercent)
    }

    /** There is enough data, and few handles for it, or nothing to compare with, or growth. */
    predicate Due(dataCount: nat, handleCount: nat)
      reads this
    {
      && Enough(dataCount)
      && (FewHandles(dataCount, handleCount) || dataCountAtLastCollection == 0 || Grown(dataCount))
    }

    /** The code goes by the share that the new data is of the old. */
    method ShouldCollect(dataCount: nat, handleCount: nat) returns (due: bool)
      requires dataCount < WORD && dataCountAtLastCollection < WORD
      ensures due <==> Due(dataCount, handleCount)
    {
      if (dataCount as real) < MIN_ALLOCATIONS {
        return false;
      }
      var handleThreshold := handleDeficitTriggerPercent * dataCount as real;
      if handleCount as real <= handleThreshold {
        return true;
      }
      var amountOfNewData := (dataCount - dataCountAtLastCollection) % WORD;
      // zero divided by zero is not a number, anything else divided by zero is infinite
      if dataCountAtLastCollection == 0 {
        return true;
      }
      var percentMoreData := amountOfNewData as real / dataCountAtLastCollection as real;
      assert dataCountAtLastCollection + amountOfNewData ==
             if dataCountAtLastCollection <= dataCount then dataCount else dataCount + WORD;
      assert (dataCountAtLastCollection + amountOfNewData) as real - dataCountAtLastCollection as real
             == amountOfNewData as real;
      GrowthShare((dataCountAtLastCollection + amountOfNewData) as real, dataCountAtLastCollection as real,
                  allocationsTriggerPercent);
      return percentMoreData >= allocationsTriggerPercent;
    }
  }

  /** The fewer handles, the sooner a collection is due. */
  lemma FewerHandlesSooner(t: GcTrigger, dataCount: nat, handleCount: nat, fewer: nat)
    requires t.Due(dataCount, handleCount) && fewer <= handleCount
    ensures t.Due(dataCount, fewer)
  {
  }

  /** With no handles at all one is due as soon as there are 666 allocations, and never with
      less. */
  lemma DueWithoutHandles(t: GcTrigger, dataCount: nat)
    requires t.handleDeficitTriggerPercent >= 0.0
    ensures t.Due(dataCount, 0) <==> dataCount >= 666
  {
    assert t.handleDeficitTriggerPercent * dataCount as real >= 0.0;
    assert dataCount >= 666 <==> dataCount as real >= 666.0;
    assert dataCount <= 665 <==> dataCount as real <= 665.0;
  }

  /** The more data, the sooner, if the handle count and the recorded count stay and have
      not been crossed. */
  lemma MoreDataSooner(t: GcTrigger, dataCount: nat, handleCount: nat, more: nat)
    requires t.handleDeficitTriggerPercent >= 0.0 && t.dataCountAtLastCollection <= dataCount <= more
    requires t.Due(dataCount, handleCount)
    ensures t.Due(more, handleCount)
  {
    assert t.handleDeficitTriggerPercent * (more as real - dataCount as real) >= 0.0;
  }

  /** By default: from 666 allocations on, when there are at most nine handles for ten of
      them, or nothing is recorded, or there are seven quarters of what is recorded. */
  lemma DueByDefault(t: GcTrigger, dataCount: nat, handleCount: nat)
    requires t.allocationsTriggerPercent == 0.75 && t.handleDeficitTriggerPercent == 0.9
    requires t.dataCountAtLastCollection <= dataCount
    ensures t.Due(dataCount, handleCount) <==>
              && dataCount >= 666
              && (|| 10 * handleCount <= 9 * dataCount
                  || t.dataCountAtLastCollection == 0
                  || 4 * dataCount >= 7 * t.dataCountAtLastCollection)
    ensures t.dataCountAtLastCollection == dataCount ==>
              (t.Due(dataCount, handleCount) <==> dataCount >= 666 && 10 * handleCount <= 9 * dataCount)
  {
    var n, k, r := dataCount as real, handleCount as real, t.dataCountAtLastCollection as real;
    assert dataCount >= 666 <==> n >= 666.0;
    assert dataCount <= 665 <==> n <= 665.0;
    assert 10 * handleCount <= 9 * dataCount <==> 10.0 * k <= 9.0 * n by {
      assert (10 * handleCount) as real == 10.0 * k && (9 * dataCount) as real == 9.0 * n;
    }
    assert 4 * dataCount >= 7 * t.dataCountAtLastCollection <==> 4.0 * n >= 7.0 * r by {
      assert (4 * dataCount) as real == 4.0 * n && (7 * t.dataCountAtLastCollection) as real == 7.0 * r;
    }
  }

  /** The code's test of the share of growth is the documented product, but for the one
      case of equality: the documentation asks for more, the code for at least as much. */
  lemma GrowthShare(now: real, before: real, share: real)
    requires before > 0.0
    ensures (now - before) / before >= share <==> now >= before * (1.0 + share)
    ensures ((now - before) / before >= share) != (now > before * (1.0 + share)) <==> now == before * (1.0 + share)
  {
    var q := (now - before) / before;
    assert q * before == now - before;
    if q >= share {
      assert q * before >= share * before;
    } else {
      assert q * before < share * before;
    }
  }

  /** Once the count is recorded, only a lack of handles asks for another collection before
      the count has grown. */
  lemma OnlyFewHandlesAskAgain(t: GcTrigger, dataCount: nat, handleCount: nat)
    requires t.dataCountAtLastCollection == dataCount && t.allocationsTriggerPercent > 0.0
    ensures t.Due(dataCount, handleCount) <==> t.Enough(dataCount) && t.FewHandles(dataCount, handleCount)
  {
    if t.Enough(dataCount) {
      assert dataCount as real * t.allocationsTriggerPercent > 0.0;
    }
  }

  // ---- the counts that are compared

  datatype Phase = Open | Sweeping | Swept

  /** The data list with the collector's side of it. A check runs in phase `Open`, under
      the lock that a collection holds. */
  datatype Gc = Gc(list: State, phase: Phase, recorded: nat)

  datatype GcStep = OnList(e: Step) | BeginSweep | EndSweep | Record

  predicate Removes(pc: Pc) {
    pc.Retaining? || pc.Condemning? || pc.Cleared? || pc.Returning? || pc.Removing?
  }

  /** Data leaves the list only by the sweep, which keeps what is not counted yet; DataList
      derives that from the safety of the collector. */
  predicate Allowed(g: Gc, e: Step)
    requires Enabled(g.list, e)
  {
    match e
    case RemoveStart(_, _) => false
    case RetainStart(_, _) => g.phase == Sweeping
    case RetainLoad(t, keep) =>
      keep || g.list.slots[g.list.pcs[t].p] == None || g.list.slots[g.list.pcs[t].p].value in g.list.issued
    case _ => true
  }

  predicate GcEnabled(g: Gc, e: GcStep) {
    match e
    case OnList(f) => Enabled(g.list, f) && Allowed(g, f)
    case BeginSweep => g.phase == Open
    case EndSweep => g.phase == Sweeping && forall t | t in g.list.pcs :: !Removes(g.list.pcs[t])
    case Record => g.phase == Swept
  }

  function GcApply(g: Gc, e: GcStep): Gc
    requires GcEnabled(g, e)
  {
    match e
    case OnList(f) => g.(list := Apply(g.list, f))
    case BeginSweep => g.(phase := Sweeping)
    case EndSweep => g.(phase := Swept)
    case Record => g.(phase := Open, recorded := g.list.estimate)
  }

  ghost predicate GcInv(g: Gc) {
    && Inv(g.list)
    && (g.phase != Sweeping ==> forall t | t in g.list.pcs :: !Removes(g.list.pcs[t]))
    && (forall t | t in g.list.pcs && (g.list.pcs[t].Condemning? || g.list.pcs[t].Removing?) ::
          g.list.pcs[t].x in g.list.issued)
    && (forall t | t in g.list.pcs && g.list.pcs[t].Stored? :: g.list.pcs[t].x in Holding(g.list))
    && (g.phase == Open ==> g.recorded <= g.list.estimate)
  }

  predicate GcNext(g: Gc, e: GcStep, g': Gc) {
    GcEnabled(g, e) && g' == GcApply(g, e) && |Holding(g'.list)| < WORD
  }

  predicate GcRun(states: seq<Gc>, steps: seq<GcStep>) {
    && |states| == |steps| + 1
    && Init(states[0].list) && states[0].phase == Open && states[0].recorded == 0
    && forall i | 0 <= i < |steps| :: GcNext(states[i], steps[i], states[i+1])
  }

  /** While nothing is being removed the counter does not go down. */
  lemma OnlyGrows(g: Gc, e: Step)
    requires GcInv(g) && g.phase != Sweeping && Enabled(g.list, e) && Allowed(g, e)
    requires |Holding(g.list)| < WORD
    ensures Apply(g.list, e).estimate >= g.list.estimate
  {
    hide Apply, Inv, Holding;
    EstimateStep(g.list, e);
    EstimateExact(g.list);
    NoUnderflow(g.list);
    assert Overcounted(g.list) == {};
    if e.CountUp? {
      assert e.t in Uncounted(g.list);
      assert |Uncounted(g.list)| > 0;
    }
  }

  lemma RemovalsKept(g: Gc, e: Step)
    requires GcInv(g) && Enabled(g.list, e) && Allowed(g, e)
    ensures var s' := Apply(g.list, e);
            && (g.phase != Sweeping ==> forall t | t in s'.pcs :: !Removes(s'.pcs[t]))
            && (forall t | t in s'.pcs && (s'.pcs[t].Condemning? || s'.pcs[t].Removing?) :: s'.pcs[t].x in s'.issued)
  {
    hide Apply, Effect, Inv, Holding;
    Tables(g.list, e);
    OwnPc(g.list, e);
    forall u | u != e.t
      ensures var s' := Apply(g.list, e);
              && (u in s'.pcs <==> u in g.list.pcs)
              && (u in g.list.pcs ==> s'.pcs[u] == g.list.pcs[u])
    {
      OthersStay(g.list, e, u);
    }
  }

  lemma StoredStay(g: Gc, e: Step)
    requires GcInv(g) && Enabled(g.list, e) && Allowed(g, e)
    ensures var s' := Apply(g.list, e); forall t | t in s'.pcs && s'.pcs[t].Stored? :: s'.pcs[t].x in Holding(s')
  {
    hide Apply, After, Effect, Inv, Holding, ThreadOk;
    StepRefinesSet(g.list, e);
    var s' := Apply(g.list, e);
    forall t | t in s'.pcs && s'.pcs[t].Stored? ensures s'.pcs[t].x in Holding(s') {
      if t == e.t {
        OwnItem(g.list, e);
      } else {
        OthersStay(g.list, e, t);
        NotIssued(g.list, t);
      }
    }
  }

  lemma NotIssued(s: State, t: ThreadId)
    requires Inv(s) && t in s.pcs && s.pcs[t].Stored?
    ensures s.pcs[t].x !in s.issued
  {
  }

  lemma GcStepKeeps(g: Gc, e: GcStep)
    requires GcInv(g) && GcEnabled(g, e) && |Holding(g.list)| < WORD
    ensures GcInv(GcApply(g, e))
  {
    hide Apply, Inv, Holding, Enabled, Removes;
    if e.OnList? {
      StepKeeps(g.list, e.e);
      RemovalsKept(g, e.e);
      StoredStay(g, e.e);
      if g.phase == Open { OnlyGrows(g, e.e); }
    }
  }

  lemma {:induction false} GcRunInv(states: seq<Gc>, steps: seq<GcStep>, i: nat)
    requires GcRun(states, steps) && i < |states|
    ensures GcInv(states[i]) && |Holding(states[i].list)| < WORD
  {
    hide Inv, Apply, Enabled, Holding;
    if i == 0 {
      InitInv(states[0].list);
      NothingYet(states[0].list);
    } else {
      GcRunInv(states, steps, i - 1);
      assert GcNext(states[i-1], steps[i-1], states[i-1+1]);
      GcStepKeeps(states[i-1], steps[i-1]);
    }
  }

  lemma NothingYet(s: State)
    requires Init(s)
    ensures Holding(s) == {} && s.pcs == map[] && s.estimate == 0
  {
  }

  lemma InRange(g: Gc)
    requires GcInv(g) && g.phase == Open
    ensures g.recorded <= g.list.estimate < WORD
  {
  }

  /** Whenever a check can run, the data count is at least the one recorded after the last
      collection: the subtraction in the check is exact. */
  lemma CountsNeverCross(states: seq<Gc>, steps: seq<GcStep>, i: nat)
    requires GcRun(states, steps) && i < |states| && states[i].phase == Open
    ensures states[i].recorded <= states[i].list.estimate
    ensures (states[i].list.estimate - states[i].recorded) % WORD == states[i].list.estimate - states[i].recorded
  {
    GcRunInv(states, steps, i);
    EstimateExact(states[i].list);
    NoUnderflow(states[i].list);
    hide Inv;
  }
}
