// The lockout over a run: every operation that was begun has made its exchange or is
// still about to, so the warrants out are those handed out and not dropped.
module LockoutCounts {
  import opened Basics
  import opened LockoutProtocol

  /** Threads that have begun `get_warrant` and have not got the warrant yet. */
  function Getting(s: State): set<ThreadId> {
    set t | t in s.pcs && AboutToGet(s.pcs[t])
  }

  predicate AboutToGet(pc: Pc) {
    || pc.Load? || pc.FastTry? || pc.WantMutex? || pc.SlowLoad? || pc.SlowTry?
    || pc.SlowWait? || pc.Waiting?
  }

  function GetsBegun(steps: seq<Step>, i: nat): nat
    requires i <= |steps|
  {
    Tally(steps, i, (e: Step) => e.GetWarrant?)
  }

  function DropsBegun(steps: seq<Step>, i: nat): nat
    requires i <= |steps|
  {
    Tally(steps, i, (e: Step) => e.DropWarrant?)
  }

  function ClearsBegun(steps: seq<Step>, i: nat): nat
    requires i <= |steps|
  {
    Tally(steps, i, (e: Step) => e.DropExclusive?)
  }

  /** The attempts to get an exclusive warrant that were made when no warrant was out. */
  function ExclusiveGot(states: seq<State>, steps: seq<Step>, i: nat): nat
    requires i <= |states| && i <= |steps|
  {
    if i == 0 then 0
    else ExclusiveGot(states, steps, i - 1)
         + if steps[i-1].GetExclusive? && Free(states[i-1]) then 1 else 0
  }

  predicate Free(s: State) {
    s.shared == 0 && s.exclusive == 0
  }

  /** The thread's exchange hands out a warrant. */
  predicate Takes(s: State, e: Step) {
    && e.Advance? && e.t in s.pcs && (s.pcs[e.t].FastTry? || s.pcs[e.t].SlowTry?)
    && s.pcs[e.t].v == s.count
  }

  /** The thread's exchange takes one back. */
  predicate Gives(s: State, e: Step) {
    e.Advance? && e.t in s.pcs && s.pcs[e.t].DropTry? && s.pcs[e.t].v == s.count
  }

  lemma GettingStep(s: State, e: Step)
    requires Enabled(s, e)
    ensures |Getting(Apply(s, e))| ==
              |Getting(s)| + (if e.GetWarrant? then 1 else 0) - (if Takes(s, e) then 1 else 0)
  {
    hide Dropping, Clearing;
    CountChange(Getting(s), Getting(Apply(s, e)), e.t);
  }

  lemma DroppingStep(s: State, e: Step)
    requires Inv(s) && Enabled(s, e)
    ensures |Dropping(Apply(s, e))| ==
              |Dropping(s)| + (if e.DropWarrant? then 1 else 0) - (if Gives(s, e) then 1 else 0)
  {
    hide Awaited, MutexHeld, MutexOk, Clearing;
    OwnWarrant(s, e.t);
    CountChange(Dropping(s), Dropping(Apply(s, e)), e.t);
  }

  lemma ClearingStep(s: State, e: Step)
    requires Inv(s) && Enabled(s, e)
    ensures |Clearing(Apply(s, e))| ==
              |Clearing(s)| + (if e.DropExclusive? then 1 else 0) - (if Clears(s, e) then 1 else 0)
  {
    hide Awaited, MutexHeld, MutexOk, Dropping;
    OwnWarrant(s, e.t);
    CountChange(Clearing(s), Clearing(Apply(s, e)), e.t);
  }

  /** The thread takes the signpost down. */
  predicate Clears(s: State, e: Step) {
    e.Advance? && e.t in s.pcs && s.pcs[e.t].ClearSignpost?
  }

  lemma WarrantsStep(s: State, e: Step)
    requires Inv(s) && Enabled(s, e) && Bounded(s, e)
    ensures Apply(s, e).shared == s.shared + (if Takes(s, e) then 1 else 0) - (if Gives(s, e) then 1 else 0)
    ensures Apply(s, e).exclusive ==
              s.exclusive + (if e.GetExclusive? && Free(s) then 1 else 0) - (if Clears(s, e) then 1 else 0)
  {
    hide Awaited, MutexHeld, MutexOk;
    OwnWarrant(s, e.t);
  }

  /** No warrant is lost or made up: the shared warrants out are the gets begun, but for
      those still under way, minus the drops begun, but for those still under way; the
      exclusive one is there if it was got once more than its drops have gone through. */
  lemma {:induction false} WarrantsConserved(states: seq<State>, steps: seq<Step>, i: nat)
    requires Run(states, steps) && i < |states|
    ensures i <= |steps|
    ensures var s := states[i];
            && s.shared == (GetsBegun(steps, i) - |Getting(s)|) - (DropsBegun(steps, i) - |Dropping(s)|)
            && s.exclusive == ExclusiveGot(states, steps, i) - (ClearsBegun(steps, i) - |Clearing(s)|)
  {
    if i > 0 {
      WarrantsConserved(states, steps, i - 1);
      RunInv(states, steps, i - 1);
      var s, e := states[i-1], steps[i-1];
      assert Next(s, e, states[i-1+1]);
      GettingStep(s, e);
      DroppingStep(s, e);
      ClearingStep(s, e);
      WarrantsStep(s, e);
      hide Inv, Apply, Enabled, Getting, Dropping, Clearing, Takes, Gives, Clears;
    }
  }

  /** When no operation is under way and everything handed out has been dropped, the counter
      is back at zero, so the next attempt of either kind gets its warrant. */
  lemma AllGivenBack(states: seq<State>, steps: seq<Step>, i: nat)
    requires Run(states, steps) && i < |states| && states[i].pcs == map[]
    requires i <= |steps| && GetsBegun(steps, i) == DropsBegun(steps, i)
    requires ExclusiveGot(states, steps, i) == ClearsBegun(steps, i)
    ensures states[i].count == 0 && states[i].shared == 0 && states[i].exclusive == 0 && states[i].mutex == None
  {
    WarrantsConserved(states, steps, i);
    RunInv(states, steps, i);
    assert Getting(states[i]) == {} && Dropping(states[i]) == {} && Clearing(states[i]) == {};
  }

  /** The operations do not block each other: unless all that are under way wait for a
      notification, one of them can go on. */
  lemma SomeoneCanGo(states: seq<State>, steps: seq<Step>, i: nat, t: ThreadId) returns (u: ThreadId)
    requires Run(states, steps) && i < |states| && t in states[i].pcs && states[i].pcs[t] != Waiting
    ensures Enabled(states[i], Advance(u))
  {
    RunInv(states, steps, i);
    DropsSucceed(states, steps, i, t);
    var s := states[i];
    if s.mutex.Some? && (s.pcs[t] == WantMutex || s.pcs[t] == WantMutexToDrop) {
      u := s.mutex.value;
    } else {
      u := t;
    }
  }
}
