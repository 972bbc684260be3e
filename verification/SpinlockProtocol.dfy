// The atomic-protecting spinlock under any interleaving. Inclusive lockers add to the
// tracker without looking; a failed attempt is never taken back, only wiped out when the
// exclusive holder stores zero.
module SpinlockProtocol {
  import opened Basics

  const SENTINEL_VALUE: nat := 0x1000_0000_0000_0000

  type ThreadId = nat

  /** A thread in the loop of `lock_exclusive`: about to load, or about to swap. */
  datatype Pc = Load | Try(value: nat)

  /** `inclusive` and `exclusive` count the guards that exist; `failed` the attempts that
      failed since the exclusive guard was taken. */
  datatype State = State(tracker: nat, pcs: map<ThreadId, Pc>, inclusive: nat, exclusive: nat, failed: nat)

  const INIT := State(0, map[], 0, 0, 0)

  datatype Step =
    | LockExclusive(t: ThreadId)
    | Advance(t: ThreadId)
    | LockInclusive
    | DropInclusive
    | DropExclusive

  predicate Enabled(s: State, e: Step) {
    match e
    case LockExclusive(t) => t !in s.pcs
    case Advance(t) => t in s.pcs
    case LockInclusive => true
    case DropInclusive => s.inclusive > 0
    case DropExclusive => s.exclusive > 0
  }

  function Apply(s: State, e: Step): State
    requires Enabled(s, e)
  {
    match e
    case LockExclusive(t) => s.(pcs := s.pcs[t := Load])
    case Advance(t) =>
      (match s.pcs[t]
       case Load => if s.tracker == 0 then s.(pcs := s.pcs[t := Try(0)]) else s
       case Try(value) =>
         if s.tracker == value then
           s.(tracker := SENTINEL_VALUE, pcs := s.pcs - {t}, exclusive := s.exclusive + 1, failed := 0)
         else s.(pcs := s.pcs[t := Load]))
    case LockInclusive =>
      if s.tracker < SENTINEL_VALUE then s.(tracker := s.tracker + 1, inclusive := s.inclusive + 1)
      else s.(tracker := (s.tracker + 1) % WORD, failed := s.failed + 1)
    case DropInclusive => s.(tracker := (s.tracker - 1) % WORD, inclusive := s.inclusive - 1)
    case DropExclusive => s.(tracker := 0, exclusive := s.exclusive - 1, failed := 0)
  }

  /** Either only inclusive guards, counted by the tracker, or one exclusive guard, with
      the tracker at the sentinel plus the failed attempts. */
  predicate Inv(s: State) {
    && (|| (s.exclusive == 0 && s.tracker == s.inclusive < SENTINEL_VALUE)
        || (s.exclusive == 1 && s.inclusive == 0 && s.tracker == SENTINEL_VALUE + s.failed < WORD))
    && (forall t | t in s.pcs && s.pcs[t].Try? :: s.pcs[t].value == 0)
  }

  /** Room for one more attempt below the sentinel, or below the end of the word. */
  predicate Bounded(s: State, e: Step) {
    e.LockInclusive? ==> s.tracker != SENTINEL_VALUE - 1 && s.tracker != WORD - 1
  }

  /** A step keeps the guards straight exactly as long as the tracker has room. */
  lemma StepKeepsExactly(s: State, e: Step)
    requires Inv(s) && Enabled(s, e)
    ensures Inv(Apply(s, e)) <==> Bounded(s, e)
  {
    assert WORD % WORD == 0;
  }

  predicate Next(s: State, e: Step, s': State) {
    Enabled(s, e) && Bounded(s, e) && s' == Apply(s, e)
  }

  predicate Run(states: seq<State>, steps: seq<Step>) {
    && |states| == |steps| + 1
    && states[0] == INIT
    && forall i | 0 <= i < |steps| :: Next(states[i], steps[i], states[i+1])
  }

  lemma {:induction false} RunInv(states: seq<State>, steps: seq<Step>, i: nat)
    requires Run(states, steps) && i < |states|
    ensures Inv(states[i])
  {
    if i > 0 {
      RunInv(states, steps, i - 1);
      assert Next(states[i-1], steps[i-1], states[i-1+1]);
      StepKeepsExactly(states[i-1], steps[i-1]);
    }
  }

  /** An exclusive guard excludes every other guard, in spite of unreturned increments. */
  lemma Exclusion(states: seq<State>, steps: seq<Step>, i: nat)
    requires Run(states, steps) && i < |states|
    ensures var s := states[i];
            && s.exclusive <= 1 && (s.exclusive == 1 ==> s.inclusive == 0)
            && (s.tracker < SENTINEL_VALUE <==> s.exclusive == 0)
            && s.tracker == if s.exclusive == 1 then SENTINEL_VALUE + s.failed else s.inclusive
  {
    RunInv(states, steps, i);
  }

  /** An inclusive attempt succeeds exactly when there is no exclusive guard; the exclusive
      swap exactly when there is no guard. */
  lemma WhoGetsIn(states: seq<State>, steps: seq<Step>, i: nat)
    requires Run(states, steps) && i < |steps|
    ensures steps[i].LockInclusive? ==> (states[i+1].inclusive == states[i].inclusive + 1 <==> states[i].exclusive == 0)
    ensures steps[i].Advance? && steps[i].t in states[i].pcs && states[i].pcs[steps[i].t].Try? ==>
              (states[i+1].exclusive == states[i].exclusive + 1 <==>
               states[i].inclusive == 0 && states[i].exclusive == 0)
  {
    RunInv(states, steps, i);
    assert Next(states[i], steps[i], states[i+1]);
  }

  /** Storing zero forgets no guard, and taking one off never wraps around. */
  lemma DropsAreExact(states: seq<State>, steps: seq<Step>, i: nat)
    requires Run(states, steps) && i < |steps|
    ensures steps[i].DropExclusive? ==>
            states[i].inclusive == 0 && states[i+1].exclusive == 0 && states[i+1].tracker == 0
    ensures steps[i].DropInclusive? ==> states[i].tracker > 0 && states[i+1].tracker == states[i].tracker - 1
  {
    RunInv(states, steps, i);
    assert Next(states[i], steps[i], states[i+1]);
  }

  // ---- guards over a run

  /** The inclusive attempts that were made when no exclusive guard was out. */
  function InclusiveGot(states: seq<State>, steps: seq<Step>, i: nat): nat
    requires i <= |states| && i <= |steps|
  {
    if i == 0 then 0
    else InclusiveGot(states, steps, i - 1)
         + if steps[i-1].LockInclusive? && states[i-1].exclusive == 0 then 1 else 0
  }

  /** No guard is lost or made up: the inclusive ones are those got and not dropped; whoever
      began to lock exclusively is still trying, or has the guard, or has dropped it. */
  lemma {:induction false} GuardsConserved(states: seq<State>, steps: seq<Step>, i: nat)
    requires Run(states, steps) && i < |states|
    ensures i <= |steps|
    ensures states[i].inclusive ==
              InclusiveGot(states, steps, i) - Tally(steps, i, (e: Step) => e.DropInclusive?)
    ensures states[i].exclusive ==
              Tally(steps, i, (e: Step) => e.LockExclusive?) - |states[i].pcs|
              - Tally(steps, i, (e: Step) => e.DropExclusive?)
  {
    if i > 0 {
      GuardsConserved(states, steps, i - 1);
      RunInv(states, steps, i - 1);
      assert Next(states[i-1], steps[i-1], states[i-1+1]);
    }
  }

  /** When nobody is trying and every guard got has been dropped, the tracker is back at
      zero: no failed attempt is left behind in it. */
  lemma AllGivenBack(states: seq<State>, steps: seq<Step>, i: nat)
    requires Run(states, steps) && i < |states| && i <= |steps| && states[i].pcs == map[]
    requires InclusiveGot(states, steps, i) == Tally(steps, i, (e: Step) => e.DropInclusive?)
    requires Tally(steps, i, (e: Step) => e.LockExclusive?) == Tally(steps, i, (e: Step) => e.DropExclusive?)
    ensures states[i].tracker == 0
  {
    GuardsConserved(states, steps, i);
    RunInv(states, steps, i);
  }

  // ---- the bound

  /** `n` inclusive guards are taken one after the other and kept. */
  lemma {:induction false} ManyGuards(n: nat) returns (states: seq<State>, steps: seq<Step>)
    requires n < SENTINEL_VALUE
    ensures Run(states, steps) && states[|steps|] == State(n, map[], n, 0, 0)
  {
    if n == 0 {
      states, steps := [INIT], [];
    } else {
      states, steps := ManyGuards(n - 1);
      states, steps := Extend(states, steps, LockInclusive);
    }
  }

  lemma Extend(states: seq<State>, steps: seq<Step>, e: Step) returns (states': seq<State>, steps': seq<Step>)
    requires Run(states, steps) && Enabled(states[|steps|], e) && Bounded(states[|steps|], e)
    ensures Run(states', steps') && steps' == steps + [e]
    ensures states'[|steps'|] == Apply(states[|steps|], e)
  {
    assert Next(states[|steps|], e, Apply(states[|steps|], e));
    states', steps' := states + [Apply(states[|steps|], e)], steps + [e];
    hide Next;
  }

  /** With all guards that there is room for taken, the next attempt succeeds and puts the
      sentinel up with no exclusive guard there; the one after it fails although nobody
      has exclusive access, and its increment stays. */
  lemma TooManyGuards() returns (states: seq<State>, steps: seq<Step>, s1: State, s2: State)
    ensures Run(states, steps) && !Bounded(states[|steps|], LockInclusive)
    ensures s1 == Apply(states[|steps|], LockInclusive) && s2 == Apply(s1, LockInclusive)
    ensures s1.tracker == SENTINEL_VALUE == s1.inclusive && s1.exclusive == 0
    ensures s2.tracker == SENTINEL_VALUE + 1 && s2.inclusive == SENTINEL_VALUE && s2.exclusive == 0
  {
    states, steps := ManyGuards(SENTINEL_VALUE - 1);
    s1 := Apply(states[|steps|], LockInclusive);
    s2 := Apply(s1, LockInclusive);
  }

  /** `n` attempts fail one after the other while thread 0 has the exclusive guard. */
  lemma {:induction false} ManyFailures(n: nat) returns (states: seq<State>, steps: seq<Step>)
    requires SENTINEL_VALUE + n < WORD
    ensures Run(states, steps) && states[|steps|] == State(SENTINEL_VALUE + n, map[], 0, 1, n)
  {
    if n == 0 {
      states, steps := [INIT], [];
      states, steps := Extend(states, steps, LockExclusive(0));
      states, steps := Extend(states, steps, Advance(0));
      states, steps := Extend(states, steps, Advance(0));
    } else {
      states, steps := ManyFailures(n - 1);
      states, steps := Extend(states, steps, LockInclusive);
    }
  }

  /** With as many failed attempts as there is room for, one more wraps the tracker around,
      and the one after it gets in beside the exclusive guard. */
  lemma TooManyFailures() returns (states: seq<State>, steps: seq<Step>, s1: State, s2: State)
    ensures Run(states, steps) && !Bounded(states[|steps|], LockInclusive)
    ensures s1 == Apply(states[|steps|], LockInclusive) && s2 == Apply(s1, LockInclusive)
    ensures s1.tracker == 0 && s1.exclusive == 1
    ensures s2.inclusive == 1 && s2.exclusive == 1
  {
    states, steps := ManyFailures(WORD - 1 - SENTINEL_VALUE);
    s1 := Apply(states[|steps|], LockInclusive);
    s2 := Apply(s1, LockInclusive);
  }
}
