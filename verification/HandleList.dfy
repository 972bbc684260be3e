// The collector and its handle list together: a handle is created by the store of an
// insert, goes away by the compare-and-swap of a removal, and the handle pass is one
// iteration over the slots. What the heap's steps ask of the pass then follows from
// what the list does.
module HandleList {
  import opened Basics
  import H = Heap
  import S = Steps
  import L = ChunkedList

  datatype Joint = Joint(heap: H.State, list: L.State)

  datatype Step = OnHeap(e: S.Step) | OnList(f: L.Step) | OnBoth(e: S.Step, f: L.Step)

  predicate InPass(e: S.Step) {
    e.ByCollector? && (e.collector.DataPassEnd? || e.collector.SeeHandle? || e.collector.HandlePassEnd?)
  }

  /** Steps of the heap that the handle list takes part in. */
  predicate Shared(e: S.Step) {
    S.Created(e).Some? || S.Removed(e).Some? || InPass(e)
  }

  /** Steps of the list that the heap takes part in: all that change what the slots hold,
      and the collector's iteration where it finds something. */
  predicate Visible(s: L.State, f: L.Step)
    requires L.Enabled(s, f)
  {
    || f.Store? || L.Clears(s, f) || f.IterStart? || f.IterEnd?
    || (f.IterLoad? && s.slots[f.p].Some?)
  }

  predicate Matches(s: L.State, f: L.Step, e: S.Step)
    requires L.Enabled(s, f)
  {
    match f
    case Store(t) => S.Created(e) == Some(s.pcs[t].x)
    case RemoveSwap(t) => L.Clears(s, f) && S.Removed(e) == Some(s.pcs[t].x)
    case IterStart(_, _) => e == S.ByCollector(S.DataPassEnd)
    case IterLoad(_, p) => s.slots[p].Some? && e == S.ByCollector(S.SeeHandle(s.slots[p].value))
    case IterEnd(_) => e.ByCollector? && e.collector.HandlePassEnd?
    case _ => false
  }

  /** The program may drop any handle at any time here. Nobody filters this list. */
  ghost predicate Enabled(j: Joint, e: Step) {
    match e
    case OnHeap(h) => S.Enabled(j.heap, h) && !Shared(h)
    case OnList(f) => L.Enabled(j.list, f) && !f.RetainStart? && !Visible(j.list, f)
    case OnBoth(h, f) => S.Enabled(j.heap, h) && L.Enabled(j.list, f) && Matches(j.list, f, h)
  }

  ghost function Apply(j: Joint, e: Step): Joint
    requires Enabled(j, e)
  {
    match e
    case OnHeap(h) => Joint(S.Apply(j.heap, h), j.list)
    case OnList(f) => Joint(j.heap, L.Apply(j.list, f))
    case OnBoth(h, f) => Joint(S.Apply(j.heap, h), L.Apply(j.list, f))
  }

  // ---- the coupling

  predicate Iterating(s: L.State, t: L.ThreadId) {
    t in s.pcs && s.pcs[t].Iterating?
  }

  /** The iteration of `t` is the handle pass: what the pass has still to see is in slots
      that `t` has still to load, and what the pass has found is what `t` has reported
      without the current stamp. */
  ghost predicate PassOf(s: H.State, l: L.State, t: L.ThreadId)
    requires Iterating(l, t)
  {
    && s.phase.HandlePass? && s.phase.todo <= s.handles.Keys
    && (forall h | h in s.phase.todo && H.Registered(s, h) :: h in l.home && l.home[h] in l.pcs[t].todo)
    && (forall h :: h in s.phase.found <==> h in l.pcs[t].seen && h in s.handles && s.handles[h].stamp != s.epoch)
  }

  /** The slots hold the registered handles, and the two passes go together. */
  ghost predicate Coupled(s: H.State, l: L.State) {
    && L.Holding(l) == S.RegisteredHandles(s)
    && l.home.Keys == s.handles.Keys
    && (forall t | Iterating(l, t) :: PassOf(s, l, t))
    && (forall t, u | Iterating(l, t) && Iterating(l, u) :: t == u)
    && (s.phase.HandlePass? ==> exists t :: Iterating(l, t))
  }

  ghost predicate Inv(j: Joint) {
    L.Inv(j.list) && Coupled(j.heap, j.list)
  }

  // ---- the heap's side

  /** A step creates one new handle, or takes one off, or leaves the registered ones. */
  ghost predicate HandlesAfter(s: H.State, e: S.Step, s': H.State) {
    && (S.Created(e).Some? ==> S.Created(e).value !in s.handles)
    && (S.Removed(e).Some? ==> H.Registered(s, S.Removed(e).value))
    && s'.handles.Keys == s.handles.Keys + (if S.Created(e).Some? then {S.Created(e).value} else {})
    && S.RegisteredHandles(s') ==
         if S.Created(e).Some? then S.RegisteredHandles(s) + {S.Created(e).value}
         else if S.Removed(e).Some? then S.RegisteredHandles(s) - {S.Removed(e).value}
         else S.RegisteredHandles(s)
  }

  lemma HeapHandles(s: H.State, e: S.Step)
    requires S.Enabled(s, e)
    ensures HandlesAfter(s, e, S.Apply(s, e))
  {
    match e {
      case ByProgram(p) => ProgramHandles(s, p); hide S.ProgramEnabled, S.ProgramApply;
      case ByCollector(c) => CollectorHandles(s, c); hide S.CollectorEnabled, S.CollectorApply;
      case ByWorker(w) => WorkerHandles(s, w); hide S.WorkerEnabled, S.WorkerApply;
      case ByDropper(d) => DropperHandles(s, d); hide S.DropperEnabled, S.DropperApply;
    }
  }

  lemma ProgramHandles(s: H.State, p: S.ProgramStep)
    requires S.ProgramEnabled(s, p)
    ensures HandlesAfter(s, S.ByProgram(p), S.ProgramApply(s, p))
  {
    hide H.LiveOwner;
    if p.New? || p.WriteInit? { MovingHandles(s, p); hide S.ProgramApply, HandlesAfter; }
  }

  lemma MovingHandles(s: H.State, p: S.ProgramStep)
    requires S.ProgramEnabled(s, p) && (p.New? || p.WriteInit?)
    ensures HandlesAfter(s, S.ByProgram(p), S.ProgramApply(s, p))
  {
  }

  lemma CollectorHandles(s: H.State, c: S.CollectorStep)
    requires S.CollectorEnabled(s, c)
    ensures HandlesAfter(s, S.ByCollector(c), S.CollectorApply(s, c))
  {
  }

  lemma WorkerHandles(s: H.State, w: S.WorkerStep)
    requires S.WorkerEnabled(s, w)
    ensures HandlesAfter(s, S.ByWorker(w), S.WorkerApply(s, w))
  {
  }

  lemma DropperHandles(s: H.State, d: S.DropperStep)
    requires S.DropperEnabled(s, d)
    ensures HandlesAfter(s, S.ByDropper(d), S.DropperApply(s, d))
  {
  }

  /** Outside its own steps the handle pass stays where it is, and so do the stamps. */
  ghost predicate PassAfter(s: H.State, s': H.State) {
    && (s'.phase.HandlePass? <==> s.phase.HandlePass?)
    && (s.phase.HandlePass? ==>
          && s'.phase == s.phase && s'.epoch == s.epoch
          && forall h | h in s.handles :: h in s'.handles && s'.handles[h].stamp == s.handles[h].stamp)
  }

  lemma HeapPass(s: H.State, e: S.Step)
    requires S.Enabled(s, e) && !InPass(e)
    ensures PassAfter(s, S.Apply(s, e))
  {
    match e {
      case ByProgram(p) => ProgramPass(s, p); hide S.ProgramEnabled, S.ProgramApply;
      case ByCollector(c) => CollectorPass(s, c); hide S.CollectorEnabled, S.CollectorApply;
      case ByWorker(w) => WorkerPass(s, w); hide S.WorkerEnabled, S.WorkerApply;
      case ByDropper(d) => DropperPass(s, d); hide S.DropperEnabled, S.DropperApply;
    }
  }

  lemma ProgramPass(s: H.State, p: S.ProgramStep)
    requires S.ProgramEnabled(s, p)
    ensures PassAfter(s, S.ProgramApply(s, p))
  {
    hide H.LiveOwner;
  }

  lemma CollectorPass(s: H.State, c: S.CollectorStep)
    requires S.CollectorEnabled(s, c) && !InPass(S.ByCollector(c))
    ensures PassAfter(s, S.CollectorApply(s, c))
  {
  }

  lemma WorkerPass(s: H.State, w: S.WorkerStep)
    requires S.WorkerEnabled(s, w)
    ensures PassAfter(s, S.WorkerApply(s, w))
  {
  }

  lemma DropperPass(s: H.State, d: S.DropperStep)
    requires S.DropperEnabled(s, d)
    ensures PassAfter(s, S.DropperApply(s, d))
  {
  }

  // ---- the list's side

  lemma OwnFacts(l: L.State)
    requires L.Inv(l)
    ensures forall p | p in l.slots && l.slots[p].Some? :: l.slots[p].value in l.home && l.home[l.slots[p].value] == p
    ensures forall x | x in L.Holding(l) :: x in l.home && l.home[x] in l.slots && l.slots[l.home[x]] == Some(x)
    ensures forall t, x | Iterating(l, t) && x in l.pcs[t].seen :: x in l.home
  {
    forall t, x | Iterating(l, t) && x in l.pcs[t].seen ensures x in l.home {
      assert L.Iteration(l, l.pcs[t]);
    }
  }

  /** Where the heap has a part in a step of the list, the list alone already grants what the
      heap's step asks for; in particular, when the iteration is through, every handle that
      the pass has not seen is registered no longer. */
  lemma ListLeads(j: Joint, f: L.Step)
    requires Inv(j) && L.Enabled(j.list, f)
    ensures f.Store? ==> j.list.pcs[f.t].x !in j.heap.handles
    ensures f.RemoveSwap? && L.Clears(j.list, f) ==> H.Registered(j.heap, j.list.pcs[f.t].x)
    ensures f.IterLoad? && j.list.slots[f.p].Some? ==>
              S.CollectorEnabled(j.heap, S.SeeHandle(j.list.slots[f.p].value))
    ensures f.IterEnd? ==> forall n :: S.CollectorEnabled(j.heap, S.HandlePassEnd(n))
  {
    hide L.Inv;
    if f.Store? { StoredIsNew(j.list, f); }
    hide L.Apply, L.After, L.Effect;
    if f.RemoveSwap? && L.Clears(j.list, f) {
      L.LoadedIsHeld(j.list, j.list.pcs[f.t].p);
    } else if f.IterLoad? {
      assert Iterating(j.list, f.t);
      L.LoadedIsHeld(j.list, f.p);
    } else if f.IterEnd? {
      assert Iterating(j.list, f.t);
    }
  }

  lemma StoredIsNew(l: L.State, f: L.Step)
    requires L.Inv(l) && L.Enabled(l, f) && f.Store?
    ensures l.pcs[f.t].x !in l.home
  {
    assert L.ThreadOk(l, f.t);
  }

  /** A step of the list changes what the slots hold as the heap expects. */
  lemma ListHolding(l: L.State, f: L.Step)
    requires L.Inv(l) && L.Enabled(l, f) && !(f.RetainSwap? && L.Clears(l, f))
    ensures L.Holding(L.Apply(l, f)) ==
              if f.Store? then L.Holding(l) + {l.pcs[f.t].x}
              else if L.Clears(l, f) then L.Holding(l) - {l.pcs[f.t].x}
              else L.Holding(l)
  {
    hide L.Inv, L.Apply, L.After, L.Effect;
    L.StepRefinesSet(l, f);
    if f.RemoveSwap? && !L.Clears(l, f) {
      OwnFacts(l);
      RemovesHome(l, f.t);
    }
  }

  lemma RemovesHome(l: L.State, t: L.ThreadId)
    requires L.Inv(l) && t in l.pcs && l.pcs[t].Removing?
    ensures l.pcs[t].x in l.home && l.home[l.pcs[t].x] == l.pcs[t].p
  {
    assert L.ThreadOk(l, t);
  }

  // ---- the coupling is kept

  /** A step of the heap outside the pass. */
  lemma PassByHeap(s: H.State, e: S.Step, l: L.State, t: L.ThreadId)
    requires S.Enabled(s, e) && !InPass(e) && Iterating(l, t) && PassOf(s, l, t)
    requires forall x | x in l.pcs[t].seen :: x in s.handles
    ensures PassOf(S.Apply(s, e), l, t)
  {
    HeapHandles(s, e);
    HeapPass(s, e);
    hide S.Enabled, S.Apply;
    var s' := S.Apply(s, e);
    forall h | h in s'.phase.todo && H.Registered(s', h) ensures H.Registered(s, h) {
      assert h in S.RegisteredHandles(s');
    }
  }

  /** Who iterates after a step of the list. */
  lemma StillIterating(l: L.State, f: L.Step, u: L.ThreadId)
    requires L.Enabled(l, f)
    ensures Iterating(L.Apply(l, f), u) <==>
              if u == f.t then f.IterStart? || f.IterLoad? else Iterating(l, u)
    ensures u != f.t && Iterating(l, u) ==> L.Apply(l, f).pcs[u] == l.pcs[u]
    ensures f.IterLoad? || f.IterEnd? ==> Iterating(l, f.t)
    ensures Iterating(l, f.t) ==> f.IterLoad? || f.IterEnd?
  {
    if u == f.t { L.OwnPc(l, f); } else { L.OthersStay(l, f, u); }
    hide L.Apply, L.Effect;
  }

  /** A step of the list that is not the iterating thread's. */
  lemma PassByOthers(s: H.State, l: L.State, f: L.Step, t: L.ThreadId)
    requires L.Inv(l) && L.Enabled(l, f) && Iterating(l, t) && PassOf(s, l, t) && f.t != t
    ensures Iterating(L.Apply(l, f), t) && PassOf(s, L.Apply(l, f), t)
  {
    hide L.Apply, L.Effect, L.After, L.Inv;
    L.Tables(l, f);
    StillIterating(l, f, t);
    if f.Store? { StoredIsNew(l, f); }
  }

  /** The iteration finds an empty slot: no registered handle was there to be seen. */
  lemma PassByEmptySlot(s: H.State, l: L.State, t: L.ThreadId, p: L.Slot)
    requires L.Inv(l) && L.Enabled(l, L.IterLoad(t, p)) && l.slots[p] == None
    requires PassOf(s, l, t) && L.Holding(l) == S.RegisteredHandles(s)
    ensures PassOf(s, L.Apply(l, L.IterLoad(t, p)), t)
  {
    hide L.Apply, L.Effect, L.Inv;
    var f := L.IterLoad(t, p);
    L.Tables(l, f);
    L.OwnPc(l, f);
    OwnFacts(l);
    forall h | h in s.phase.todo && H.Registered(s, h) ensures l.home[h] != p {
      assert h in S.RegisteredHandles(s);
    }
  }

  /** The iteration finds a handle and the pass sees it. */
  lemma PassSees(s: H.State, l: L.State, t: L.ThreadId, p: L.Slot, h: H.HandleId)
    requires L.Inv(l) && L.Enabled(l, L.IterLoad(t, p)) && l.slots[p] == Some(h)
    requires PassOf(s, l, t) && L.Holding(l) == S.RegisteredHandles(s)
    requires S.CollectorEnabled(s, S.SeeHandle(h))
    ensures PassOf(S.CollectorApply(s, S.SeeHandle(h)), L.Apply(l, L.IterLoad(t, p)), t)
  {
    hide L.Apply, L.Effect, L.Inv;
    var f := L.IterLoad(t, p);
    L.Tables(l, f);
    L.OwnPc(l, f);
    OwnFacts(l);
    forall g | g in s.phase.todo && H.Registered(s, g) && g != h ensures l.home[g] != p {
      assert g in S.RegisteredHandles(s);
    }
  }

  /** The iteration begins with all slots of all chunks, and so with every handle. */
  lemma PassBegins(s: H.State, l: L.State, t: L.ThreadId, chain: seq<L.ChunkId>)
    requires L.Inv(l) && L.Enabled(l, L.IterStart(t, chain))
    requires L.Holding(l) == S.RegisteredHandles(s) && S.CollectorEnabled(s, S.DataPassEnd)
    ensures var l' := L.Apply(l, L.IterStart(t, chain));
            Iterating(l', t) && PassOf(S.CollectorApply(s, S.DataPassEnd), l', t)
  {
    hide L.Apply, L.Effect, L.Inv;
    var f := L.IterStart(t, chain);
    L.Tables(l, f);
    L.OwnPc(l, f);
    OwnFacts(l);
    L.InvParts(l);
    L.IterBegins(l, t, chain);
    hide L.Linked, L.Conserved, L.Threads, L.Iterations, L.Estimated;
  }

  // ---- every step

  /** What the heap holds and what the slots hold. */
  lemma ContentsKept(j: Joint, e: Step)
    requires Inv(j) && Enabled(j, e)
    ensures var j' := Apply(j, e);
            L.Holding(j'.list) == S.RegisteredHandles(j'.heap) && j'.list.home.Keys == j'.heap.handles.Keys
  {
    hide L.Inv, L.Apply, L.Enabled, L.Holding, S.Enabled, S.Apply, S.RegisteredHandles, Iterating, PassOf;
    if !e.OnList? { HeapHandles(j.heap, e.e); }
    if !e.OnHeap? {
      ListHolding(j.list, e.f);
      L.Tables(j.list, e.f);
    }
  }

  lemma SeenAreHandles(j: Joint, t: L.ThreadId)
    requires Inv(j) && Iterating(j.list, t)
    ensures forall x | x in j.list.pcs[t].seen :: x in j.heap.handles
  {
    OwnFacts(j.list);
  }

  /** While the pass begins nobody iterates, and after that only one thread does. */
  lemma OneIteration(j: Joint, h: S.Step, f: L.Step, u: L.ThreadId)
    requires Inv(j) && Enabled(j, OnBoth(h, f)) && InPass(h) && Iterating(j.list, u)
    ensures f.t == u && !f.IterStart?
  {
    hide L.Inv, L.Apply, L.Holding, S.RegisteredHandles;
    assert PassOf(j.heap, j.list, u);
    StillIterating(j.list, f, f.t);
  }

  lemma PassByBoth(j: Joint, h: S.Step, f: L.Step, u: L.ThreadId)
    requires Inv(j) && Enabled(j, OnBoth(h, f)) && Iterating(L.Apply(j.list, f), u)
    ensures PassOf(S.Apply(j.heap, h), L.Apply(j.list, f), u)
  {
    hide L.Inv, L.Apply, L.Enabled, L.Holding, S.CollectorEnabled, S.CollectorApply, S.RegisteredHandles, PassOf;
    StillIterating(j.list, f, u);
    if !InPass(h) {
      SeenAreHandles(j, u);
      PassByHeap(j.heap, h, j.list, u);
      PassByOthers(S.Apply(j.heap, h), j.list, f, u);
    } else {
      if Iterating(j.list, u) { OneIteration(j, h, f, u); }
      if f.IterStart? {
        PassBegins(j.heap, j.list, f.t, f.chain);
      } else {
        PassSees(j.heap, j.list, f.t, f.p, h.collector.h);
      }
    }
  }

  lemma PassKept(j: Joint, e: Step, u: L.ThreadId)
    requires Inv(j) && Enabled(j, e) && Iterating(Apply(j, e).list, u)
    ensures PassOf(Apply(j, e).heap, Apply(j, e).list, u)
  {
    hide L.Inv, L.Apply, L.Enabled, L.Holding, S.Enabled, S.Apply, S.RegisteredHandles, PassOf;
    match e {
      case OnHeap(h) =>
        SeenAreHandles(j, u);
        PassByHeap(j.heap, h, j.list, u);
      case OnList(f) =>
        StillIterating(j.list, f, u);
        if u == f.t { PassByEmptySlot(j.heap, j.list, u, f.p); } else { PassByOthers(j.heap, j.list, f, u); }
      case OnBoth(h, f) => PassByBoth(j, h, f, u);
    }
  }

  /** Two iterations after a step are two iterations before it. */
  lemma OnlyOne(j: Joint, e: Step, t: L.ThreadId, u: L.ThreadId)
    requires Inv(j) && Enabled(j, e)
    requires Iterating(Apply(j, e).list, t) && Iterating(Apply(j, e).list, u)
    ensures t == u
  {
    hide L.Inv, L.Apply, L.Enabled, L.Holding, S.Enabled, S.Apply, S.RegisteredHandles, PassOf;
    if !e.OnHeap? {
      StillIterating(j.list, e.f, t);
      StillIterating(j.list, e.f, u);
      if e.f.IterStart? {
        if Iterating(j.list, t) { OneIteration(j, e.e, e.f, t); }
        if Iterating(j.list, u) { OneIteration(j, e.e, e.f, u); }
      }
    }
  }

  /** The pass is on only while a thread iterates. */
  lemma SomeoneIterates(j: Joint, e: Step)
    requires Inv(j) && Enabled(j, e) && Apply(j, e).heap.phase.HandlePass?
    ensures exists t :: Iterating(Apply(j, e).list, t)
  {
    hide L.Inv, L.Apply, L.Enabled, L.Holding, S.RegisteredHandles, PassOf, S.ProgramApply, S.ProgramEnabled;
    if !e.OnList? && !InPass(e.e) { HeapPass(j.heap, e.e); }
    if !e.OnHeap? && (e.f.IterStart? || e.f.IterLoad?) {
      StillIterating(j.list, e.f, e.f.t);
    } else {
      var t :| Iterating(j.list, t);
      if !e.OnHeap? { StillIterating(j.list, e.f, t); }
      assert Iterating(Apply(j, e).list, t);
    }
  }

  /** Every joint step keeps the slots and the registered handles together. */
  lemma StepKeeps(j: Joint, e: Step)
    requires Inv(j) && Enabled(j, e)
    ensures Inv(Apply(j, e))
  {
    hide L.Inv, Enabled, Apply, Iterating, PassOf;
    var j' := Apply(j, e);
    assert L.Inv(j'.list) by { ListKept(j, e); }
    ContentsKept(j, e);
    forall t | Iterating(j'.list, t) ensures PassOf(j'.heap, j'.list, t) { PassKept(j, e, t); }
    forall t, u | Iterating(j'.list, t) && Iterating(j'.list, u) ensures t == u { OnlyOne(j, e, t, u); }
    if j'.heap.phase.HandlePass? { SomeoneIterates(j, e); }
  }

  lemma ListKept(j: Joint, e: Step)
    requires L.Inv(j.list) && Enabled(j, e)
    ensures L.Inv(Apply(j, e).list)
  {
    hide L.Inv, L.Enabled, L.Apply, S.Enabled, S.Apply;
    if !e.OnHeap? { L.StepKeeps(j.list, e.f); }
  }

  // ---- every joint run

  ghost predicate Next(j: Joint, e: Step, j': Joint) {
    Enabled(j, e) && j' == Apply(j, e)
  }

  ghost predicate Run(states: seq<Joint>, steps: seq<Step>) {
    && |states| == |steps| + 1
    && states[0].heap == H.INIT && L.Init(states[0].list)
    && forall i | 0 <= i < |steps| :: Next(states[i], steps[i], states[i+1])
  }

  lemma Begins(j: Joint)
    requires j.heap == H.INIT && L.Init(j.list)
    ensures Inv(j)
  {
    L.InitInv(j.list);
    hide L.Inv, PassOf;
  }

  lemma {:induction false} RunInv(states: seq<Joint>, steps: seq<Step>, i: nat)
    requires Run(states, steps) && i < |states|
    ensures Inv(states[i])
  {
    hide Inv, Enabled, Apply, L.Init;
    if i == 0 {
      Begins(states[0]);
    } else {
      RunInv(states, steps, i - 1);
      assert Next(states[i-1], steps[i-1], states[i-1+1]);
      StepKeeps(states[i-1], steps[i-1]);
    }
  }

  /** At any time in any run, the items in the slots are the registered handles. */
  lemma SlotsHoldHandles(states: seq<Joint>, steps: seq<Step>, i: nat, h: H.HandleId)
    requires Run(states, steps) && i < |states|
    ensures H.Registered(states[i].heap, h) <==> h in L.Holding(states[i].list)
  {
    RunInv(states, steps, i);
    hide L.Inv, L.Holding, PassOf, Iterating;
    assert H.Registered(states[i].heap, h) <==> h in S.RegisteredHandles(states[i].heap);
  }

  lemma EndOfPass(j: Joint, h: S.Step, t: L.ThreadId)
    requires Inv(j) && Enabled(j, OnBoth(h, L.IterEnd(t)))
    ensures Iterating(j.list, t) && PassOf(j.heap, j.list, t) && j.list.pcs[t].todo == {}
    ensures S.Apply(j.heap, h).phase.Mark? && S.Apply(j.heap, h).phase.roots == j.heap.phase.found
    ensures forall x | x in j.heap.phase.todo :: !H.Registered(j.heap, x)
  {
    ListLeads(j, L.IterEnd(t));
    hide L.Inv, L.Apply, L.Holding;
    assert Iterating(j.list, t);
  }

  /** Marking begins with the handles that the iteration over the slots has reported and
      that carry an older stamp, and by then nothing registered is left that the pass still
      had to see. */
  lemma RootsAreReported(states: seq<Joint>, steps: seq<Step>, i: nat, t: L.ThreadId, h: H.HandleId)
    requires Run(states, steps) && i < |steps| && steps[i].OnBoth? && steps[i].f == L.IterEnd(t)
    ensures var s, s', w := states[i].heap, states[i+1].heap, states[i].list.pcs;
            && t in w && w[t].Iterating? && s.phase.HandlePass? && s'.phase.Mark?
            && (h in s'.phase.roots <==> h in w[t].seen && h in s.handles && s.handles[h].stamp != s.epoch)
            && (h in s.phase.todo ==> !H.Registered(s, h))
  {
    RunInv(states, steps, i);
    assert Next(states[i], steps[i], states[i+1]);
    EndOfPass(states[i], steps[i].e, t);
    hide Inv, Enabled, S.Apply, L.Apply;
  }

  /** Step `i` begins a handle pass by thread `t`, which does not end before step `k`. */
  predicate Passing(steps: seq<Step>, i: nat, k: nat, t: L.ThreadId) {
    && i < k <= |steps| && steps[i].OnBoth? && steps[i].f.IterStart? && steps[i].f.t == t
    && forall m | i < m < k && !steps[m].OnHeap? :: steps[m].f != L.IterEnd(t)
  }

  lemma {:induction false} StartIsRemembered(states: seq<Joint>, steps: seq<Step>, i: nat, k: nat, t: L.ThreadId)
    requires Run(states, steps) && Passing(steps, i, k, t)
    ensures Iterating(states[k].list, t)
    ensures states[k].list.pcs[t].atStart == S.RegisteredHandles(states[i].heap)
  {
    hide Inv, L.Apply, L.Effect, L.Holding, S.Enabled, S.Apply, S.RegisteredHandles;
    var j, e := states[k-1], steps[k-1];
    assert Next(j, e, states[k-1+1]);
    if k == i + 1 {
      RunInv(states, steps, i);
      assert L.Holding(j.list) == S.RegisteredHandles(j.heap) by { ContentsAgree(j); }
      L.OwnPc(j.list, e.f);
    } else {
      StartIsRemembered(states, steps, i, k - 1, t);
      if !e.OnHeap? {
        StillIterating(j.list, e.f, t);
        if e.f.t == t { L.OwnPc(j.list, e.f); }
      }
    }
  }

  lemma ContentsAgree(j: Joint)
    requires Inv(j)
    ensures L.Holding(j.list) == S.RegisteredHandles(j.heap)
  {
  }

  lemma ReportedUnlessGone(j: Joint, t: L.ThreadId, h: H.HandleId)
    requires Inv(j) && Iterating(j.list, t) && j.list.pcs[t].todo == {}
    requires h in j.list.pcs[t].atStart && H.Registered(j.heap, h)
    ensures h in j.list.pcs[t].seen
  {
    assert L.Iteration(j.list, j.list.pcs[t]);
    assert h in S.RegisteredHandles(j.heap);
  }

  /** A whole handle pass, slot by slot, with anything going on beside it: a handle that is
      registered when it begins and when it ends is a root exactly if it was not found
      inside locked data. */
  lemma PassFindsRoots(states: seq<Joint>, steps: seq<Step>, i: nat, k: nat, t: L.ThreadId, h: H.HandleId)
    requires Run(states, steps) && Passing(steps, i, k, t)
    requires k < |steps| && steps[k].OnBoth? && steps[k].f == L.IterEnd(t)
    requires H.Registered(states[i].heap, h) && H.Registered(states[k].heap, h)
    ensures states[k+1].heap.phase.Mark?
    ensures h in states[k+1].heap.phase.roots <==> states[k].heap.handles[h].stamp != states[k].heap.epoch
  {
    RunInv(states, steps, k);
    StartIsRemembered(states, steps, i, k, t);
    assert Next(states[k], steps[k], states[k+1]);
    EndOfPass(states[k], steps[k].e, t);
    assert h in S.RegisteredHandles(states[i].heap);
    hide Inv, Enabled, S.Apply, L.Apply;
    ReportedUnlessGone(states[k], t, h);
  }
}
