// The chunked list's inserts and removals from beginning to end: an item that was passed in
// is on its way into a slot, or in one, and returned in the end; an item whose removal is
// through is gone.
module ChunkedUpdates {
  import opened Basics
  import opened ChunkedList

  ghost predicate InsertedBySome(s: State, x: Item) {
    exists t :: t in s.pcs && InsertingItem(s.pcs[t], x)
  }

  ghost predicate StoredBySome(s: State, x: Item) {
    exists t :: t in s.pcs && s.pcs[t].Stored? && s.pcs[t].x == x
  }

  /** Where an item that was passed in has got to: on its way, stored and not counted, or
      returned. */
  ghost predicate Accounted(s: State, x: Item) {
    && (x in s.used && x !in s.home ==> InsertedBySome(s, x))
    && (x in s.home && x !in s.issued ==> StoredBySome(s, x))
  }

  /** An insert goes on with its item until it stores it, and then until it counts it. */
  lemma InsertGoesOn(s: State, e: Step)
    requires Enabled(s, e)
    ensures forall x | e.t in s.pcs && InsertingItem(s.pcs[e.t], x) && !e.Store? ::
              e.t in Apply(s, e).pcs && InsertingItem(Apply(s, e).pcs[e.t], x)
    ensures e.InsertStart? ==> e.t in Apply(s, e).pcs && InsertingItem(Apply(s, e).pcs[e.t], e.x)
    ensures e.Store? ==> e.t in Apply(s, e).pcs && Apply(s, e).pcs[e.t] == Stored(s.pcs[e.t].x, s.pcs[e.t].p)
    ensures e.Store? ==> forall x | InsertingItem(s.pcs[e.t], x) :: x == s.pcs[e.t].x
    ensures e.t in s.pcs && s.pcs[e.t].Stored? ==> e.CountUp?
  {
    OwnPc(s, e);
    hide Apply, Effect;
  }

  lemma AccountedKept(s: State, e: Step, x: Item)
    requires Enabled(s, e) && Accounted(s, x)
    ensures Accounted(Apply(s, e), x)
  {
    hide Apply, Effect, After, InsertingItem;
    var s' := Apply(s, e);
    InsertGoesOn(s, e);
    Tables(s, e);
    if x in s.used && x !in s.home {
      var t: ThreadId :| t in s.pcs && InsertingItem(s.pcs[t], x);
      if t != e.t { OthersStay(s, e, t); }
      assert x !in s'.home ==> t in s'.pcs && InsertingItem(s'.pcs[t], x);
    }
    if x in s.home && x !in s.issued {
      var t: ThreadId :| t in s.pcs && s.pcs[t].Stored? && s.pcs[t].x == x;
      if t != e.t { OthersStay(s, e, t); }
      assert x !in s'.issued ==> t in s'.pcs && s'.pcs[t].Stored? && s'.pcs[t].x == x;
    }
  }

  /** In every run, an item that was passed in is being inserted, or is in its slot and about
      to be counted, or has been returned to the caller of the insert. */
  lemma {:induction false} NoInsertIsLost(states: seq<State>, steps: seq<Step>, i: nat, x: Item)
    requires Run(states, steps) && i < |states|
    ensures Accounted(states[i], x)
    ensures states[i].pcs == map[] ==> (x in states[i].used <==> x in states[i].issued)
  {
    hide Inv, Apply, Enabled;
    if i > 0 {
      NoInsertIsLost(states, steps, i - 1, x);
      assert Next(states[i-1], steps[i-1], states[i-1+1]);
      AccountedKept(states[i-1], steps[i-1], x);
    }
    RunInv(states, steps, i);
    HomeIsUsed(states[i]);
  }

  lemma HomeIsUsed(s: State)
    requires Inv(s)
    ensures forall x | x in s.issued :: x in s.home
    ensures forall x | x in s.home :: x in s.used
  {
  }

  // ---- removals

  /** The thread is still after the item, or the item is gone. */
  predicate RemovingOrGone(s: State, t: ThreadId, x: Item) {
    || (t in s.pcs && s.pcs[t].Removing? && s.pcs[t].x == x)
    || (x in s.home && x !in Holding(s))
  }

  lemma RemovingKept(s: State, e: Step, t: ThreadId, x: Item)
    requires Inv(s) && Enabled(s, e) && RemovingOrGone(s, t, x)
    ensures RemovingOrGone(Apply(s, e), t, x)
  {
    hide Inv, Apply, Effect, After, Holding;
    Tables(s, e);
    if t in s.pcs && s.pcs[t].Removing? && s.pcs[t].x == x {
      RemovedItemKnown(s, t);
      if e.t != t { OthersStay(s, e, t); } else { StepRefinesSet(s, e); }
    } else {
      NewlyHeld(s, e);
    }
  }

  lemma RemovedItemKnown(s: State, t: ThreadId)
    requires Inv(s) && t in s.pcs && s.pcs[t].Removing?
    ensures s.pcs[t].x in s.home
  {
    assert ThreadOk(s, t);
  }

  /** When a removal is through, its item is not in the list, whoever took it out, and it
      does not come back. */
  lemma {:induction false} RemovalIsThrough(states: seq<State>, steps: seq<Step>, j: nat, m: nat, t: ThreadId, x: Item)
    requires Run(states, steps) && j < m < |states| && j < |steps| && steps[j] == RemoveStart(t, x)
    ensures RemovingOrGone(states[m], t, x)
    ensures t !in states[m].pcs ==> x !in Holding(states[m])
  {
    hide Inv, Apply, Effect, Enabled, Holding;
    assert Next(states[m-1], steps[m-1], states[m-1+1]);
    if m == j + 1 {
      OwnPc(states[j], steps[j]);
      RemoveBegins(states[j], t, x);
    } else {
      RemovalIsThrough(states, steps, j, m - 1, t, x);
      RunInv(states, steps, m - 1);
      RemovingKept(states[m-1], steps[m-1], t, x);
    }
  }

  lemma RemoveBegins(s: State, t: ThreadId, x: Item)
    requires Enabled(s, RemoveStart(t, x))
    ensures var pc := After(s, RemoveStart(t, x)); pc.Some? && pc.value.Removing? && pc.value.x == x
  {
  }
}
