// What pointers mean, from the history of a run: an atomic cell holds what was last put
// into it, a read finds that, any other handle keeps the target it was made with, and a
// handle is where the last step that moved it put it.
module Pointers {
  import opened Basics
  import opened Heap
  import opened Steps
  import opened Theorems

  function PointsTo(s: State, h: HandleId): Option<DataId> {
    if h in s.handles then Some(s.handles[h].target) else None
  }

  // ---- the history of a cell

  /** What step `j` puts into the cell `h`: its creation, a store, a swap, or a
      compare-and-swap that was given a pointer to what the cell had last been given. */
  function PutBy(states: seq<State>, steps: seq<Step>, j: nat, h: HandleId): Option<DataId>
    requires j < |states| && j < |steps|
    decreases j, 1
  {
    if !steps[j].ByProgram? then None
    else match steps[j].program
      case AtomicNew(p, k) => if k == h then PointsTo(states[j], p) else None
      case AtomicStore(_, c, v) => if c == h then PointsTo(states[j], v) else None
      case AtomicSwap(_, c, v) => if c == h then PointsTo(states[j], v) else None
      case AtomicCas(_, c, current, v) =>
        if c == h && LastPut(states, steps, j, h) == PointsTo(states[j], current) then PointsTo(states[j], v) else None
      case _ => None
  }

  /** What was put into the cell last before step `i`. */
  function LastPut(states: seq<State>, steps: seq<Step>, i: nat, h: HandleId): Option<DataId>
    requires i <= |states| && i <= |steps|
    decreases i, 0
  {
    if i == 0 then None
    else if PutBy(states, steps, i - 1, h).Some? then PutBy(states, steps, i - 1, h)
    else LastPut(states, steps, i - 1, h)
  }

  // ---- what a step does to pointers

  /** No handle comes, goes or is retargeted, and no guard changes. */
  ghost predicate SamePointers(s: State, s': State) {
    && s'.handles.Keys == s.handles.Keys && s'.guards == s.guards
    && forall h | h in s.handles ::
         s'.handles[h].target == s.handles[h].target && s'.handles[h].dynamic == s.handles[h].dynamic
  }

  lemma CollectorPointers(s: State, c: CollectorStep)
    requires CollectorEnabled(s, c)
    ensures SamePointers(s, CollectorApply(s, c))
    ensures forall h | h in s.handles :: CollectorApply(s, c).handles[h].owner == s.handles[h].owner
  {
  }

  lemma WorkerPointers(s: State, w: WorkerStep)
    requires WorkerEnabled(s, w)
    ensures WorkerApply(s, w).handles == s.handles && WorkerApply(s, w).guards == s.guards
  {
  }

  lemma DropperPointers(s: State, d: DropperStep)
    requires DropperEnabled(s, d)
    ensures SamePointers(s, DropperApply(s, d))
    ensures forall h | h in s.handles :: DropperApply(s, d).handles[h].owner ==
              if d.Invalidate? && h == d.h then Gone else s.handles[h].owner
  {
  }

  lemma OthersPointers(s: State, e: Step)
    requires Enabled(s, e) && !e.ByProgram?
    ensures SamePointers(s, Apply(s, e))
  {
    match e {
      case ByCollector(c) => CollectorPointers(s, c); hide CollectorEnabled, CollectorApply;
      case ByWorker(w) => WorkerPointers(s, w); hide WorkerEnabled, WorkerApply;
      case ByDropper(d) => DropperPointers(s, d); hide DropperEnabled, DropperApply;
    }
  }

  predicate Writes(p: ProgramStep, h: HandleId) {
    || (p.AtomicStore? && p.h == h)
    || (p.AtomicSwap? && p.h == h)
    || (p.AtomicCas? && p.h == h)
  }

  /** Only an operation on the cell itself can retarget a handle. */
  lemma ProgramTargets(s: State, p: ProgramStep, h: HandleId)
    requires ProgramEnabled(s, p) && h in s.handles
    ensures var s' := ProgramApply(s, p);
            && h in s'.handles && s'.handles[h].dynamic == s.handles[h].dynamic
            && (!Writes(p, h) ==> s'.handles[h].target == s.handles[h].target)
            && (Writes(p, h) ==> s.handles[h].dynamic)
  {
    hide LiveOwner;
  }

  lemma ProgramWrites(s: State, p: ProgramStep, h: HandleId)
    requires ProgramEnabled(s, p) && Writes(p, h)
    ensures h in s.handles && p.v in s.handles
    ensures ProgramApply(s, p).handles[h].target ==
              if p.AtomicCas? && s.handles[h].target != s.handles[p.current].target then s.handles[h].target
              else s.handles[p.v].target
  {
    hide LiveOwner;
  }

  lemma NewCells(s: State, p: ProgramStep, h: HandleId)
    requires ProgramEnabled(s, p) && h !in s.handles
    ensures AtomicCell(ProgramApply(s, p), h) ==>
              p.AtomicNew? && p.k == h && PointsTo(ProgramApply(s, p), h) == PointsTo(s, p.h)
    ensures p.AtomicNew? && p.k == h ==> AtomicCell(ProgramApply(s, p), h)
  {
    hide LiveOwner;
  }

  // ---- cells over a run

  lemma StepOf(states: seq<State>, steps: seq<Step>, i: nat)
    requires Run(states, steps) && i < |steps|
    ensures |states| == |steps| + 1 && Enabled(states[i], steps[i]) && states[i+1] == Apply(states[i], steps[i])
  {
    hide Enabled, Apply;
    assert Next(states[i], steps[i], states[i+1]);
  }

  /** At any time a cell holds what was last put into it. */
  lemma {:induction false} CellHoldsLastPut(states: seq<State>, steps: seq<Step>, i: nat, h: HandleId)
    requires Run(states, steps) && i < |states| && AtomicCell(states[i], h)
    ensures i <= |steps| && LastPut(states, steps, i, h) == PointsTo(states[i], h)
  {
    hide Enabled, Apply, PointsTo;
    if i > 0 {
      RunLength(states, steps);
      StepOf(states, steps, i - 1);
      var s, e := states[i-1], steps[i-1];
      if AtomicCell(s, h) { CellHoldsLastPut(states, steps, i - 1, h); }
      if e.ByProgram? { CellByProgram(states, steps, i - 1, h); } else { CellByOthers(s, e, h); }
    }
  }

  lemma CellByOthers(s: State, e: Step, h: HandleId)
    requires Enabled(s, e) && !e.ByProgram?
    ensures AtomicCell(Apply(s, e), h) <==> AtomicCell(s, h)
    ensures PointsTo(Apply(s, e), h) == PointsTo(s, h)
  {
    OthersPointers(s, e);
    hide Enabled, Apply;
  }

  lemma CellByProgram(states: seq<State>, steps: seq<Step>, j: nat, h: HandleId)
    requires j < |steps| < |states| && Enabled(states[j], steps[j]) && steps[j].ByProgram?
    requires AtomicCell(states[j], h) ==> LastPut(states, steps, j, h) == PointsTo(states[j], h)
    requires AtomicCell(Apply(states[j], steps[j]), h)
    ensures LastPut(states, steps, j + 1, h) == PointsTo(Apply(states[j], steps[j]), h)
  {
    var s, p := states[j], steps[j].program;
    if h !in s.handles {
      NewCells(s, p, h);
    } else {
      ProgramTargets(s, p, h);
      if Writes(p, h) { ProgramWrites(s, p, h); CurrentKnown(s, p); } else { CreatedIsNew(s, p, h); }
    }
    hide ProgramEnabled, ProgramApply;
  }

  lemma CurrentKnown(s: State, p: ProgramStep)
    requires ProgramEnabled(s, p)
    ensures p.AtomicCas? ==> p.current in s.handles
  {
    hide ProgramApply;
  }

  lemma CreatedIsNew(s: State, p: ProgramStep, h: HandleId)
    requires ProgramEnabled(s, p) && h in s.handles
    ensures p.AtomicNew? ==> p.k != h
  {
    hide LiveOwner;
  }

  /** A pointer that was read and not registered yet stays what was read. */
  lemma LoadedStays(s: State, e: Step, t: ThreadId)
    requires Enabled(s, e) && t in s.guards && s.guards[t].Some?
    requires !(e.ByProgram? && e.program.AtomicRegister? && e.program.t == t)
    ensures t in Apply(s, e).guards && Apply(s, e).guards[t] == s.guards[t]
  {
    if e.ByProgram? {
      ProgramLoaded(s, e.program, t);
      hide ProgramEnabled, ProgramApply;
    } else {
      OthersPointers(s, e);
      hide Enabled, Apply;
    }
  }

  lemma ProgramLoaded(s: State, p: ProgramStep, t: ThreadId)
    requires ProgramEnabled(s, p) && t in s.guards && s.guards[t].Some?
    requires !(p.AtomicRegister? && p.t == t)
    ensures t in ProgramApply(s, p).guards && ProgramApply(s, p).guards[t] == s.guards[t]
  {
    hide LiveOwner;
  }

  predicate Reads(e: Step, t: ThreadId, h: HandleId) {
    && e.ByProgram?
    && ((e.program.AtomicLoad? && e.program.t == t && e.program.h == h)
        || (e.program.AtomicSwap? && e.program.t == t && e.program.h == h))
  }

  predicate Registers(e: Step, t: ThreadId) {
    e.ByProgram? && e.program.AtomicRegister? && e.program.t == t
  }

  lemma ReadByStep(s: State, e: Step, t: ThreadId, h: HandleId)
    requires Enabled(s, e) && Reads(e, t, h)
    ensures AtomicCell(s, h) && t in Apply(s, e).guards && Apply(s, e).guards[t] == PointsTo(s, h)
  {
    hide LiveOwner;
  }

  lemma {:induction false} InHand(states: seq<State>, steps: seq<Step>, l: nat, r: nat, t: ThreadId, h: HandleId)
    requires Run(states, steps) && l < r < |states| && l < |steps| && Reads(steps[l], t, h)
    requires forall m | l < m < r && m < |steps| :: !Registers(steps[m], t)
    ensures t in states[r].guards && states[r].guards[t].Some?
    ensures states[r].guards[t] == LastPut(states, steps, l, h)
  {
    hide Enabled, Apply;
    RunLength(states, steps);
    StepOf(states, steps, r - 1);
    if r == l + 1 {
      ReadByStep(states[l], steps[l], t, h);
      CellHoldsLastPut(states, steps, l, h);
    } else {
      InHand(states, steps, l, r - 1, t, h);
      LoadedStays(states[r-1], steps[r-1], t);
    }
  }

  lemma RegisterMakes(s: State, e: Step, t: ThreadId)
    requires Enabled(s, e) && Registers(e, t)
    ensures t in s.guards && PointsTo(Apply(s, e), e.program.k) == s.guards[t]
    ensures e.program.k in Apply(s, e).handles && Apply(s, e).handles[e.program.k].owner == Heap.Program
  {
    hide LiveOwner;
  }

  /** What a load or a swap of `h` returns points to what was last put into `h` before it,
      whatever happens between the access and the making of the returned pointer. */
  lemma ReadFindsLastPut(states: seq<State>, steps: seq<Step>, l: nat, r: nat, t: ThreadId, h: HandleId)
    requires Run(states, steps) && l < r < |steps| && Reads(steps[l], t, h) && Registers(steps[r], t)
    requires forall m | l < m < r :: !Registers(steps[m], t)
    ensures PointsTo(states[r+1], steps[r].program.k) == LastPut(states, steps, l, h)
    ensures LastPut(states, steps, l, h).Some?
  {
    hide Enabled, Apply;
    RunLength(states, steps);
    InHand(states, steps, l, r, t, h);
    StepOf(states, steps, r);
    RegisterMakes(states[r], steps[r], t);
  }

  /** What is put into a cell is what is there until something else is put there. */
  lemma {:induction false} PutIsLast(states: seq<State>, steps: seq<Step>, j: nat, i: nat, h: HandleId)
    requires j < i <= |steps| && i <= |states| && PutBy(states, steps, j, h).Some?
    requires forall m | j < m < i :: PutBy(states, steps, m, h) == None
    ensures LastPut(states, steps, i, h) == PutBy(states, steps, j, h)
  {
    if j < i - 1 { PutIsLast(states, steps, j, i - 1, h); }
  }

  /** A compare-and-swap writes, if anything, its new pointer, and it does so if and only if
      `current` points to what was last put into the cell. */
  lemma CasDecides(states: seq<State>, steps: seq<Step>, i: nat,
                   t: ThreadId, h: HandleId, current: HandleId, v: HandleId)
    requires Run(states, steps) && i < |steps| && steps[i] == ByProgram(AtomicCas(t, h, current, v))
    ensures PointsTo(states[i+1], h) ==
              if PointsTo(states[i], current) == LastPut(states, steps, i, h) then PointsTo(states[i], v)
              else LastPut(states, steps, i, h)
    ensures LastPut(states, steps, i + 1, h) == PointsTo(states[i+1], h)
  {
    RunLength(states, steps);
    StepOf(states, steps, i);
    var p := steps[i].program;
    ProgramWrites(states[i], p, h);
    CurrentKnown(states[i], p);
    ProgramTargets(states[i], p, h);
    hide ProgramEnabled, ProgramApply;
    CellHoldsLastPut(states, steps, i, h);
    CellHoldsLastPut(states, steps, i + 1, h);
  }

  // ---- all other handles

  lemma {:induction false} FixedStays(states: seq<State>, steps: seq<Step>, i: nat, k: nat, h: HandleId)
    requires Run(states, steps) && i <= k < |states| && h in states[i].handles && !states[i].handles[h].dynamic
    ensures h in states[k].handles && !states[k].handles[h].dynamic
    ensures PointsTo(states[k], h) == PointsTo(states[i], h)
  {
    hide Enabled, Apply;
    if i < k {
      RunLength(states, steps);
      FixedStays(states, steps, i, k - 1, h);
      StepOf(states, steps, k - 1);
      FixedByStep(states[k-1], steps[k-1], h);
    }
  }

  lemma FixedByStep(s: State, e: Step, h: HandleId)
    requires Enabled(s, e) && h in s.handles && !s.handles[h].dynamic
    ensures h in Apply(s, e).handles && !Apply(s, e).handles[h].dynamic
    ensures PointsTo(Apply(s, e), h) == PointsTo(s, h)
  {
    if e.ByProgram? { ProgramTargets(s, e.program, h); } else { OthersPointers(s, e); }
    hide Enabled, Apply;
  }

  /** What the handle made by a step points to, unless it is a cell. */
  function Origin(s: State, e: Step): Option<DataId> {
    if !e.ByProgram? then None
    else match e.program
      case New(d, _, _) => Some(d)
      case NewUninit(d, _) => Some(d)
      case Clone(h, _) => PointsTo(s, h)
      case AtomicRegister(t, _) => if t in s.guards then s.guards[t] else None
      case _ => None
  }

  lemma MadeFixed(s: State, e: Step, k: HandleId)
    requires Enabled(s, e) && Created(e) == Some(k) && !e.program.AtomicNew?
    ensures k in Apply(s, e).handles && !Apply(s, e).handles[k].dynamic && k !in s.handles
    ensures PointsTo(Apply(s, e), k) == Origin(s, e) && Origin(s, e).Some?
  {
    hide LiveOwner, CollectorApply, WorkerApply, DropperApply;
    if e.program.Clone? { LiveIsKnown(s, e.program.h); }
  }

  lemma LiveIsKnown(s: State, h: HandleId)
    requires LiveOwner(s, h)
    ensures h in s.handles
  {
  }

  /** A handle that is not a cell points for ever to what it was made for: a new one to the
      new data, a clone to what its original points to. */
  lemma KeepsOrigin(states: seq<State>, steps: seq<Step>, j: nat, i: nat, k: HandleId)
    requires Run(states, steps) && j < i < |states| && j < |steps|
    requires Created(steps[j]) == Some(k) && !steps[j].program.AtomicNew?
    ensures PointsTo(states[i], k) == Origin(states[j], steps[j]) && Origin(states[j], steps[j]).Some?
  {
    hide Enabled, Apply;
    RunLength(states, steps);
    StepOf(states, steps, j);
    MadeFixed(states[j], steps[j], k);
    FixedStays(states, steps, j + 1, i, k);
  }

  // ---- where handles are

  /** Where a step puts the handle `h`. */
  function MovedBy(e: Step, h: HandleId): Option<Owner> {
    if Created(e) == Some(h) then Some(Heap.Program)
    else if Removed(e) == Some(h) then Some(Gone)
    else match e
      case ByProgram(New(d, _, moved)) => if h in moved then Some(Inside(d, moved[h])) else None
      case ByProgram(WriteInit(d, moved)) => if h in moved then Some(Inside(d, moved[h])) else None
      case ByProgram(MoveIn(g, d, reported)) => if g == h then Some(Inside(d, reported)) else None
      case ByProgram(MoveOut(g)) => if g == h then Some(Heap.Program) else None
      case _ => None
  }

  function LastMove(steps: seq<Step>, i: nat, h: HandleId): Option<Owner>
    requires i <= |steps|
  {
    if i == 0 then None
    else if MovedBy(steps[i-1], h).Some? then MovedBy(steps[i-1], h)
    else LastMove(steps, i - 1, h)
  }

  function OwnerOf(s: State, h: HandleId): Option<Owner> {
    if h in s.handles then Some(s.handles[h].owner) else None
  }

  lemma OwnerByProgram(s: State, p: ProgramStep, h: HandleId)
    requires ProgramEnabled(s, p)
    ensures OwnerOf(ProgramApply(s, p), h) ==
              if MovedBy(ByProgram(p), h).Some? then MovedBy(ByProgram(p), h) else OwnerOf(s, h)
  {
    hide LiveOwner;
  }

  lemma OwnerByStep(s: State, e: Step, h: HandleId)
    requires Enabled(s, e)
    ensures OwnerOf(Apply(s, e), h) == if MovedBy(e, h).Some? then MovedBy(e, h) else OwnerOf(s, h)
  {
    match e {
      case ByProgram(p) => OwnerByProgram(s, p, h); hide ProgramEnabled, ProgramApply;
      case ByCollector(c) => CollectorPointers(s, c); hide CollectorEnabled, CollectorApply;
      case ByWorker(w) => WorkerPointers(s, w); hide WorkerEnabled, WorkerApply;
      case ByDropper(d) => DropperPointers(s, d); DropperKnows(s, d); hide DropperEnabled, DropperApply;
    }
  }

  lemma DropperKnows(s: State, d: DropperStep)
    requires DropperEnabled(s, d)
    ensures d.Invalidate? ==> d.h in s.handles
  {
  }

  /** At any time a handle is where the last step that had to do with it put it: with the
      program, inside data, reported by its `Scan` or not, or gone. */
  lemma {:induction false} OwnerIsLastMove(states: seq<State>, steps: seq<Step>, i: nat, h: HandleId)
    requires Run(states, steps) && i < |states|
    ensures i <= |steps| && OwnerOf(states[i], h) == LastMove(steps, i, h)
  {
    hide Enabled, Apply, MovedBy;
    RunLength(states, steps);
    if i > 0 {
      OwnerIsLastMove(states, steps, i - 1, h);
      StepOf(states, steps, i - 1);
      OwnerByStep(states[i-1], steps[i-1], h);
    }
  }

  // ---- guards

  /** What the thread has in hand, if it holds a guard, after the first `i` steps: what its
      last read found, until it has made a handle of it. */
  function Hand(states: seq<State>, steps: seq<Step>, i: nat, t: ThreadId): Option<Option<DataId>>
    requires i <= |states| && i <= |steps|
    decreases i
  {
    if i == 0 then None
    else match steps[i-1]
      case ByProgram(GuardTake(u)) => if u == t then Some(None) else Hand(states, steps, i - 1, t)
      case ByProgram(AtomicLoad(u, h)) =>
        if u == t then Some(LastPut(states, steps, i - 1, h)) else Hand(states, steps, i - 1, t)
      case ByProgram(AtomicSwap(u, h, _)) =>
        if u == t then Some(LastPut(states, steps, i - 1, h)) else Hand(states, steps, i - 1, t)
      case ByProgram(AtomicRegister(u, _)) => if u == t then Some(None) else Hand(states, steps, i - 1, t)
      case ByProgram(GuardDrop(u)) => if u == t then None else Hand(states, steps, i - 1, t)
      case _ => Hand(states, steps, i - 1, t)
  }

  function InHandOf(s: State, t: ThreadId): Option<Option<DataId>> {
    if t in s.guards then Some(s.guards[t]) else None
  }

  predicate HasToDoWith(p: ProgramStep, t: ThreadId) {
    || p == GuardTake(t) || p == GuardDrop(t)
    || (p.AtomicLoad? && p.t == t) || (p.AtomicSwap? && p.t == t) || (p.AtomicRegister? && p.t == t)
  }

  lemma ProgramHands(s: State, p: ProgramStep, t: ThreadId)
    requires ProgramEnabled(s, p)
    ensures !HasToDoWith(p, t) ==> InHandOf(ProgramApply(s, p), t) == InHandOf(s, t)
    ensures p == GuardDrop(t) ==> InHandOf(ProgramApply(s, p), t) == None
    ensures HasToDoWith(p, t) && p != GuardDrop(t) ==>
              InHandOf(ProgramApply(s, p), t) == Some(if p.AtomicLoad? || p.AtomicSwap? then PointsTo(s, p.h) else None)
    ensures p.AtomicLoad? || p.AtomicSwap? ==> AtomicCell(s, p.h)
  {
    hide LiveOwner;
  }

  lemma HandByOthers(s: State, e: Step, t: ThreadId)
    requires Enabled(s, e) && !e.ByProgram?
    ensures InHandOf(Apply(s, e), t) == InHandOf(s, t)
  {
    OthersPointers(s, e);
    hide Enabled, Apply;
  }

  /** At any time a thread that holds a guard has in hand what its last read found, or nothing
      if it has made a handle of that; and others hold no guard. */
  lemma {:induction false} HandIsLastRead(states: seq<State>, steps: seq<Step>, i: nat, t: ThreadId)
    requires Run(states, steps) && i < |states|
    ensures i <= |steps| && InHandOf(states[i], t) == Hand(states, steps, i, t)
  {
    hide Enabled, Apply, PointsTo, InHandOf;
    RunLength(states, steps);
    if i == 0 {
      NoGuards(t);
    } else {
      HandIsLastRead(states, steps, i - 1, t);
      StepOf(states, steps, i - 1);
      var s, e := states[i-1], steps[i-1];
      if e.ByProgram? {
        HandByProgram(s, e, t);
        if e.program.AtomicLoad? || e.program.AtomicSwap? { CellHoldsLastPut(states, steps, i - 1, e.program.h); }
      } else {
        HandByOthers(s, e, t);
      }
    }
  }

  lemma HandByProgram(s: State, e: Step, t: ThreadId)
    requires Enabled(s, e) && e.ByProgram?
    ensures !HasToDoWith(e.program, t) ==> InHandOf(Apply(s, e), t) == InHandOf(s, t)
    ensures e.program == GuardDrop(t) ==> InHandOf(Apply(s, e), t) == None
    ensures HasToDoWith(e.program, t) && e.program != GuardDrop(t) ==>
              InHandOf(Apply(s, e), t) ==
                Some(if e.program.AtomicLoad? || e.program.AtomicSwap? then PointsTo(s, e.program.h) else None)
    ensures e.program.AtomicLoad? || e.program.AtomicSwap? ==> AtomicCell(s, e.program.h)
  {
    ProgramHands(s, e.program, t);
    hide ProgramEnabled, ProgramApply, InHandOf, PointsTo;
  }

  lemma NoGuards(t: ThreadId)
    ensures InHandOf(INIT, t) == None
  {
  }

  /** No collection begins between the taking and the giving up of a guard. */
  lemma GuardBlocks(states: seq<State>, steps: seq<Step>, i: nat, t: ThreadId)
    requires Run(states, steps) && i < |steps| && i < |states| && Hand(states, steps, i, t).Some?
    ensures states[i].phase == Quiet && steps[i] != ByCollector(Begin)
  {
    hide Enabled, Apply, Hand;
    HandIsLastRead(states, steps, i, t);
    RunInv(states, steps, i);
    if steps[i] == ByCollector(Begin) {
      StepOf(states, steps, i);
      BeginsUnguarded(states[i]);
    }
  }

  lemma BeginsUnguarded(s: State)
    requires Enabled(s, ByCollector(Begin))
    ensures s.guards == map[]
  {
  }
}
