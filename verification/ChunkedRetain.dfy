// A whole retain of one chunk, with anything going on beside it: every slot is looked at
// once, and what is taken out is what the verdicts say.
module ChunkedRetain {
  import opened Basics
  import opened ChunkedList

  /** From its `RetainStart` at step `i` to state `k`, thread `t` retains chunk `c`. */
  predicate Retains(states: seq<State>, steps: seq<Step>, i: nat, k: nat, t: ThreadId, c: ChunkId) {
    && i < k < |states| && i < |steps| && steps[i] == RetainStart(t, c)
    && forall j | i < j <= k :: t in states[j].pcs
  }

  /** ... and with step `k` it is through. */
  predicate WholeRetain(states: seq<State>, steps: seq<Step>, i: nat, k: nat, t: ThreadId, c: ChunkId) {
    Retains(states, steps, i, k, t, c) && k < |steps| && k + 1 < |states| && t !in states[k+1].pcs
  }

  /** Step `j` is this thread's look at slot `p`. */
  predicate LooksAt(states: seq<State>, steps: seq<Step>, j: nat, t: ThreadId, p: Slot)
    requires j < |states| && j < |steps|
  {
    && steps[j].RetainLoad? && steps[j].t == t
    && t in states[j].pcs && states[j].pcs[t].Retaining? && states[j].pcs[t].p == p
  }

  /** How often it looks at `p` between step `i` and step `k`. */
  function Looks(states: seq<State>, steps: seq<Step>, i: nat, k: nat, t: ThreadId, p: Slot): nat
    requires k <= |states| && k <= |steps|
    decreases k
  {
    if k <= i + 1 then 0
    else Looks(states, steps, i, k - 1, t, p) + One(LooksAt(states, steps, k - 1, t, p))
  }

  predicate InRetain(pc: Pc) {
    pc.Retaining? || pc.Condemning? || (pc.Cleared? && pc.retain) || (pc.Returning? && pc.retain)
  }

  /** The slots before the current one, and the current one once it has been loaded. */
  predicate Passed(pc: Pc, idx: nat)
    requires InRetain(pc)
  {
    idx < pc.p.idx || (idx == pc.p.idx && !pc.Retaining?)
  }

  /** What one step makes of this thread's place in the chunk. */
  lemma OwnRetainStep(s: State, e: Step)
    requires Enabled(s, e) && e.t in s.pcs && InRetain(s.pcs[e.t]) && s.pcs[e.t].p.idx < CHUNK_SIZE
    ensures var pc := s.pcs[e.t];
            match After(s, e)
            case Some(next) =>
              && InRetain(next) && next.p.chunk == pc.p.chunk && next.p.idx < CHUNK_SIZE
              && forall idx: nat :: Passed(next, idx) <==> Passed(pc, idx) || (e.RetainLoad? && idx == pc.p.idx)
            case None => forall idx: nat | idx < CHUNK_SIZE :: Passed(pc, idx) || (e.RetainLoad? && idx == pc.p.idx)
    ensures e.RetainLoad? <==> s.pcs[e.t].Retaining?
  {
  }

  lemma RetainBegins(s: State, t: ThreadId, c: ChunkId)
    requires Enabled(s, RetainStart(t, c))
    ensures After(s, RetainStart(t, c)) == Some(Retaining(Slot(c, 0)))
  {
  }

  /** Up to state `k` exactly the passed slots have been looked at, once each. */
  lemma {:induction false} RetainSoFar(states: seq<State>, steps: seq<Step>, i: nat, k: nat, t: ThreadId, c: ChunkId)
    requires Run(states, steps) && Retains(states, steps, i, k, t, c)
    ensures var pc := states[k].pcs[t]; InRetain(pc) && pc.p.chunk == c && pc.p.idx < CHUNK_SIZE
    ensures forall idx: nat | idx < CHUNK_SIZE ::
              Looks(states, steps, i, k, t, Slot(c, idx)) == One(Passed(states[k].pcs[t], idx))
  {
    hide Apply, After, Enabled;
    var s, e := states[k-1], steps[k-1];
    assert Next(s, e, states[k-1+1]);
    OwnPc(s, e);
    if k == i + 1 {
      RetainBegins(s, t, c);
    } else {
      RetainSoFar(states, steps, i, k - 1, t, c);
      if e.t == t {
        OwnRetainStep(s, e);
      } else {
        OthersStay(s, e, t);
      }
    }
  }

  /** A whole retain looks at every slot of its chunk exactly once. */
  lemma RetainLooksOnce(states: seq<State>, steps: seq<Step>, i: nat, k: nat, t: ThreadId, c: ChunkId, idx: nat)
    requires Run(states, steps) && WholeRetain(states, steps, i, k, t, c) && idx < CHUNK_SIZE
    ensures Looks(states, steps, i, k + 1, t, Slot(c, idx)) == 1
  {
    hide Apply, After, Enabled;
    RetainSoFar(states, steps, i, k, t, c);
    var s, e := states[k], steps[k];
    assert Next(s, e, states[k+1]);
    if e.t != t { OthersStay(s, e, t); }
    OwnPc(s, e);
    OwnRetainStep(s, e);
  }

  lemma {:induction false} LookCounts(states: seq<State>, steps: seq<Step>, i: nat, j: nat, k: nat,
                                      t: ThreadId, p: Slot)
    requires i < j < k <= |states| && k <= |steps| && LooksAt(states, steps, j, t, p)
    ensures Looks(states, steps, i, k, t, p) >= Looks(states, steps, i, j, t, p) + 1
    decreases k
  {
    if j < k - 1 { LookCounts(states, steps, i, j, k - 1, t, p); }
  }

  lemma {:induction false} LookFound(states: seq<State>, steps: seq<Step>, i: nat, k: nat, t: ThreadId, p: Slot)
    returns (j: nat)
    requires k <= |states| && k <= |steps| && Looks(states, steps, i, k, t, p) > 0
    ensures i < j < k && LooksAt(states, steps, j, t, p)
    decreases k
  {
    if LooksAt(states, steps, k - 1, t, p) {
      j := k - 1;
    } else {
      j := LookFound(states, steps, i, k - 1, t, p);
    }
  }

  lemma LookIsUnique(states: seq<State>, steps: seq<Step>, i: nat, j: nat, l: nat, k: nat, t: ThreadId, p: Slot)
    requires k <= |states| && k <= |steps| && Looks(states, steps, i, k, t, p) == 1
    requires i < j < k && LooksAt(states, steps, j, t, p) && i < l < k && LooksAt(states, steps, l, t, p)
    ensures j == l
  {
    if j < l {
      LookCounts(states, steps, i, j, l, t, p);
      LookCounts(states, steps, i, l, k, t, p);
    } else if l < j {
      LookCounts(states, steps, i, l, j, t, p);
      LookCounts(states, steps, i, j, k, t, p);
    }
  }

  // ---- verdicts

  /** At step `j` the thread finds `x` and does not want to keep it. */
  predicate Condemns(states: seq<State>, steps: seq<Step>, j: nat, t: ThreadId, x: Item, p: Slot)
    requires j < |states| && j < |steps|
  {
    && LooksAt(states, steps, j, t, p) && steps[j] == RetainLoad(t, false)
    && p in states[j].slots && states[j].slots[p] == Some(x)
  }

  lemma CondemningStep(s: State, e: Step, t: ThreadId)
    requires Enabled(s, e) && t in Apply(s, e).pcs && Apply(s, e).pcs[t].Condemning?
    ensures var pc := Apply(s, e).pcs[t];
            if e.t != t then
              t in s.pcs && s.pcs[t] == pc
            else
              && e == RetainLoad(t, false) && t in s.pcs && s.pcs[t] == Retaining(pc.p)
              && pc.p in s.slots && s.slots[pc.p] == Some(pc.x)
  {
  }

  /** Whatever the thread is about to take out, it has condemned. */
  lemma {:induction false} CondemnedBefore(states: seq<State>, steps: seq<Step>, i: nat, k: nat,
                                           t: ThreadId, c: ChunkId)
    returns (j: nat)
    requires Run(states, steps) && Retains(states, steps, i, k, t, c) && states[k].pcs[t].Condemning?
    ensures i < j < k && Condemns(states, steps, j, t, states[k].pcs[t].x, states[k].pcs[t].p)
  {
    hide Apply, Enabled;
    var s, e := states[k-1], steps[k-1];
    assert Next(s, e, states[k-1+1]);
    CondemningStep(s, e, t);
    if e.t == t {
      j := k - 1;
    } else {
      j := CondemnedBefore(states, steps, i, k - 1, t, c);
    }
  }

  lemma CondemnedStep(s: State, e: Step, t: ThreadId, x: Item)
    requires Enabled(s, e) && t in s.pcs && s.pcs[t].Condemning? && s.pcs[t].x == x
    ensures e.t == t ==> e == RetainSwap(t)
    ensures e.t != t ==> t in Apply(s, e).pcs && Apply(s, e).pcs[t] == s.pcs[t]
  {
  }

  /** What is condemned is gone when the retain is through: this thread takes it out, or
      someone else did. */
  lemma {:induction false} VerdictHolds(states: seq<State>, steps: seq<Step>, i: nat, j: nat, m: nat, k: nat,
                                       t: ThreadId, c: ChunkId, x: Item, p: Slot)
    requires Run(states, steps) && WholeRetain(states, steps, i, k, t, c)
    requires i < j < m <= k + 1 && Condemns(states, steps, j, t, x, p)
    ensures (t in states[m].pcs && states[m].pcs[t] == Condemning(x, p))
            || (x in states[m].home && x !in Holding(states[m]))
    decreases m
  {
    hide Apply, Holding, Inv, Retains;
    var s, e := states[m-1], steps[m-1];
    assert Next(s, e, states[m-1+1]);
    RunInv(states, steps, m - 1);
    if m == j + 1 {
      OwnPc(s, e);
    } else {
      VerdictHolds(states, steps, i, j, m - 1, k, t, c, x, p);
      Tables(s, e);
      if x in s.home && x !in Holding(s) {
        NewlyHeld(s, e);
      } else {
        CondemnedStep(s, e, t, x);
        if e.t == t { SwapTakesOut(s, t); }
      }
    }
  }

  lemma SwapTakesOut(s: State, t: ThreadId)
    requires Inv(s) && Enabled(s, RetainSwap(t))
    ensures s.pcs[t].x in Apply(s, RetainSwap(t)).home && s.pcs[t].x !in Holding(Apply(s, RetainSwap(t)))
  {
    var e, x := RetainSwap(t), s.pcs[t].x;
    assert ThreadOk(s, t);
    StepRefinesSet(s, e);
    Tables(s, e);
    assert forall p | p in s.slots && s.slots[p] == Some(x) :: s.home[x] == p;
    hide Apply, Inv;
  }

  /** Nobody but `t` takes `x` out between step `i` and step `k`. */
  predicate LeftAlone(states: seq<State>, steps: seq<Step>, i: nat, k: nat, t: ThreadId, x: Item)
    requires k < |steps| && k < |states|
  {
    forall j | i < j <= k && Clears(states[j], steps[j]) && states[j].pcs[steps[j].t].x == x :: steps[j].t == t
  }

  lemma ClearedIsCondemned(states: seq<State>, steps: seq<Step>, i: nat, m: nat, k: nat,
                           t: ThreadId, c: ChunkId, x: Item)
    returns (l: nat)
    requires Run(states, steps) && WholeRetain(states, steps, i, k, t, c) && i < m <= k
    requires steps[m].t == t && Clears(states[m], steps[m]) && states[m].pcs[t].x == x
    ensures i < l < m && Condemns(states, steps, l, t, x, states[m].pcs[t].p)
    ensures x in states[m].home && states[m].home[x] == states[m].pcs[t].p
  {
    RetainSoFar(states, steps, i, m, t, c);
    RunInv(states, steps, m);
    assert ThreadOk(states[m], t);
    hide Run, Inv;
    l := CondemnedBefore(states, steps, i, m, t, c);
  }

  lemma StaysUnlessCleared(s: State, e: Step, x: Item)
    requires Inv(s) && Enabled(s, e) && x in Holding(s)
    requires Clears(s, e) ==> s.pcs[e.t].x != x
    ensures x in Holding(Apply(s, e)) && x in Apply(s, e).home && x in s.home && Apply(s, e).home[x] == s.home[x]
  {
    StepRefinesSet(s, e);
    Tables(s, e);
    StepFacts(s, e);
    hide Apply, Effect, After, Linked, Conserved, Iterations, Estimated, ThreadOk;
    RemovesOwn(s, e, x);
  }

  /** An unsuccessful removal is of an item that is not there. */
  lemma RemovesOwn(s: State, e: Step, x: Item)
    requires Homes(s) && Threads(s) && Enabled(s, e) && x in Holding(s)
    ensures e.RemoveSwap? && !Clears(s, e) ==> s.pcs[e.t].x != x
    ensures e.Store? ==> s.pcs[e.t].x !in s.home
  {
    assert e.t in s.pcs ==> ThreadOk(s, e.t);
  }

  /** The one look at an item's slot found it worth keeping, or is yet to come; so it is not
      this retain that takes it out. */
  lemma KeptIsNotCleared(states: seq<State>, steps: seq<Step>, i: nat, m: nat, k: nat,
                         t: ThreadId, c: ChunkId, idx: nat, x: Item, j: nat)
    requires Run(states, steps) && WholeRetain(states, steps, i, k, t, c) && idx < CHUNK_SIZE && i < m <= k
    requires x in states[m].home && states[m].home[x] == Slot(c, idx)
    requires LeftAlone(states, steps, i, k, t, x)
    requires i < j <= k && LooksAt(states, steps, j, t, Slot(c, idx)) && (m <= j || steps[j] == RetainLoad(t, true))
    ensures Clears(states[m], steps[m]) ==> states[m].pcs[steps[m].t].x != x
  {
    hide Apply, Holding, Inv;
    if Clears(states[m], steps[m]) && states[m].pcs[steps[m].t].x == x {
      var l := ClearedIsCondemned(states, steps, i, m, k, t, c, x);
      RetainLooksOnce(states, steps, i, k, t, c, idx);
      LookIsUnique(states, steps, i, j, l, k + 1, t, Slot(c, idx));
      assert false;
    }
  }

  /** The item is in the list from the beginning of the retain up to its verdict, and after
      that exactly if the verdict was to keep it. */
  lemma {:induction false} KeptSoFar(states: seq<State>, steps: seq<Step>, i: nat, m: nat, k: nat,
                                    t: ThreadId, c: ChunkId, idx: nat, x: Item, j: nat)
    requires Run(states, steps) && WholeRetain(states, steps, i, k, t, c) && idx < CHUNK_SIZE && i < m <= k + 1
    requires x in Holding(states[i+1]) && x in states[i+1].home && states[i+1].home[x] == Slot(c, idx)
    requires LeftAlone(states, steps, i, k, t, x)
    requires i < j <= k && LooksAt(states, steps, j, t, Slot(c, idx))
    requires m <= j || steps[j] == RetainLoad(t, true)
    ensures x in Holding(states[m]) && x in states[m].home && states[m].home[x] == Slot(c, idx)
    decreases m
  {
    hide Apply, Holding, Inv;
    if m > i + 1 {
      KeptSoFar(states, steps, i, m - 1, k, t, c, idx, x, j);
      assert Next(states[m-1], steps[m-1], states[m-1+1]);
      RunInv(states, steps, m - 1);
      KeptIsNotCleared(states, steps, i, m - 1, k, t, c, idx, x, j);
      hide Run, WholeRetain, LeftAlone, LooksAt;
      StaysUnlessCleared(states[m-1], steps[m-1], x);
    }
  }

  /** A whole retain of a chunk, in any run: an item of the chunk that no one else takes out
      meanwhile is looked at once, and is in the list afterwards exactly if the verdict on
      it was to keep it. */
  lemma RetainFilters(states: seq<State>, steps: seq<Step>, i: nat, k: nat, t: ThreadId, c: ChunkId, idx: nat, x: Item)
    returns (j: nat)
    requires Run(states, steps) && WholeRetain(states, steps, i, k, t, c) && idx < CHUNK_SIZE
    requires x in Holding(states[i+1]) && x in states[i+1].home && states[i+1].home[x] == Slot(c, idx)
    requires LeftAlone(states, steps, i, k, t, x)
    ensures i < j <= k && LooksAt(states, steps, j, t, Slot(c, idx))
    ensures Slot(c, idx) in states[j].slots && states[j].slots[Slot(c, idx)] == Some(x)
    ensures forall l | i < l <= k && LooksAt(states, steps, l, t, Slot(c, idx)) :: l == j
    ensures x in Holding(states[k+1]) <==> steps[j] == RetainLoad(t, true)
  {
    hide Apply, Holding, Inv;
    var p := Slot(c, idx);
    RetainLooksOnce(states, steps, i, k, t, c, idx);
    j := LookFound(states, steps, i, k + 1, t, p);
    forall l | i < l <= k && LooksAt(states, steps, l, t, p) ensures l == j {
      LookIsUnique(states, steps, i, j, l, k + 1, t, p);
    }
    KeptSoFar(states, steps, i, j, k, t, c, idx, x, j);
    RunInv(states, steps, j);
    HeldAtHome(states[j], x);
    if steps[j] == RetainLoad(t, true) {
      KeptSoFar(states, steps, i, k + 1, k, t, c, idx, x, j);
    } else {
      VerdictHolds(states, steps, i, j, k + 1, k, t, c, x, p);
    }
  }

  lemma HeldAtHome(s: State, x: Item)
    requires Inv(s) && x in Holding(s)
    ensures x in s.home && s.home[x] in s.slots && s.slots[s.home[x]] == Some(x)
  {
  }
}
