// The lockout under any interleaving: a counter changed by compare-and-swap, with a
// mutex and a condition variable for those that find the signpost in it.
module LockoutProtocol {
  import opened Basics

  type ThreadId = nat

  const EXCLUSIVE_SIGNPOST: nat := 0xFFFF_FFFF_FFFF_FFFF

  /** What a thread inside an operation does next. The `Slow` states and the last three
      hold the mutex. */
  datatype Pc =
    | Load
    | FastTry(v: nat)
    | WantMutex
    | SlowLoad
    | SlowTry(v: nat)
    | SlowWait
    | Waiting
    | SlowDone
    | DropLoad
    | DropTry(v: nat)
    | DropPanic
    | WantMutexToDrop
    | ClearSignpost
    | Notify
    | Unlock
    | ClearPanic

  /** `shared` and `exclusive` count the warrants that exist, up to the access that
      gives them up. */
  datatype State = State(
    count: nat,
    mutex: Option<ThreadId>,
    pcs: map<ThreadId, Pc>,
    shared: nat,
    exclusive: nat)

  const INIT := State(0, None, map[], 0, 0)

  datatype Step =
    | GetWarrant(t: ThreadId)
    | GetExclusive(t: ThreadId)
    | DropWarrant(t: ThreadId)
    | DropExclusive(t: ThreadId)
    | WakeUp(t: ThreadId)
    | Advance(t: ThreadId)

  predicate InMutex(pc: Pc) {
    || pc.SlowLoad? || pc.SlowTry? || pc.SlowWait? || pc.SlowDone?
    || pc.ClearSignpost? || pc.Notify? || pc.Unlock?
  }

  function Dropping(s: State): set<ThreadId> {
    set t | t in s.pcs && (s.pcs[t].DropLoad? || s.pcs[t].DropTry? || s.pcs[t].DropPanic?)
  }

  function Clearing(s: State): set<ThreadId> {
    set t | t in s.pcs && (s.pcs[t].WantMutexToDrop? || s.pcs[t].ClearSignpost? || s.pcs[t].ClearPanic?)
  }

  /** A warrant is dropped once, so there are at least as many as are being dropped.
      A waiting thread may also wake up for no reason. */
  predicate Enabled(s: State, e: Step) {
    match e
    case GetWarrant(t) => t !in s.pcs
    case GetExclusive(t) => t !in s.pcs
    case DropWarrant(t) => t !in s.pcs && |Dropping(s)| < s.shared
    case DropExclusive(t) => t !in s.pcs && |Clearing(s)| < s.exclusive
    case WakeUp(t) => t in s.pcs && s.pcs[t] == Waiting
    case Advance(t) =>
      && t in s.pcs && s.pcs[t] != Waiting && s.pcs[t] != DropPanic && s.pcs[t] != ClearPanic
      && (s.pcs[t] == WantMutex || s.pcs[t] == WantMutexToDrop ==> s.mutex == None)
  }

  function Go(s: State, t: ThreadId, pc: Pc): State {
    s.(pcs := s.pcs[t := pc])
  }

  function Leave(s: State, t: ThreadId): State {
    s.(pcs := s.pcs - {t})
  }

  /** `notify_all`: every waiting thread goes for the mutex again. */
  function WakeAll(pcs: map<ThreadId, Pc>): map<ThreadId, Pc> {
    map t | t in pcs :: if pcs[t] == Waiting then WantMutex else pcs[t]
  }

  function Advanced(s: State, t: ThreadId): State
    requires Enabled(s, Advance(t))
  {
    match s.pcs[t]
    // get_warrant, without and with the mutex
    case Load => Go(s, t, if s.count != EXCLUSIVE_SIGNPOST then FastTry(s.count) else WantMutex)
    case FastTry(v) =>
      if s.count == v then
        Leave(s.(count := v + 1, shared := s.shared + 1), t)
      else
        Go(s, t, WantMutex)
    case WantMutex => Go(s.(mutex := Some(t)), t, SlowLoad)
    case SlowLoad => Go(s, t, if s.count == EXCLUSIVE_SIGNPOST then SlowWait else SlowTry(s.count))
    case SlowTry(v) =>
      if s.count == v then
        Go(s.(count := v + 1, shared := s.shared + 1), t, SlowDone)
      else
        Go(s, t, SlowLoad)
    case SlowWait => Go(s.(mutex := None), t, Waiting)
    case SlowDone => Leave(s.(mutex := None), t)
    // dropping a warrant
    case DropLoad => Go(s, t, if s.count > 0 && s.count != EXCLUSIVE_SIGNPOST then DropTry(s.count) else DropPanic)
    case DropTry(v) =>
      if s.count == v && v > 0 && s.shared > 0 then
        Leave(s.(count := v - 1, shared := s.shared - 1), t)
      else
        Go(s, t, DropLoad)
    // dropping an exclusive warrant
    case WantMutexToDrop => Go(s.(mutex := Some(t)), t, ClearSignpost)
    case ClearSignpost =>
      if s.count == EXCLUSIVE_SIGNPOST && s.exclusive > 0 then
        Go(s.(count := 0, exclusive := s.exclusive - 1), t, Notify)
      else
        Go(s.(mutex := None), t, ClearPanic)
    case Notify => Go(s.(pcs := WakeAll(s.pcs)), t, Unlock)
    case Unlock => Leave(s.(mutex := None), t)
    case _ => s
  }

  function Apply(s: State, e: Step): State
    requires Enabled(s, e)
  {
    match e
    case GetWarrant(t) => Go(s, t, Load)
    case GetExclusive(t) =>
      if s.count == 0 then s.(count := EXCLUSIVE_SIGNPOST, exclusive := s.exclusive + 1) else s
    case DropWarrant(t) => Go(s, t, DropLoad)
    case DropExclusive(t) => Go(s, t, WantMutexToDrop)
    case WakeUp(t) => Go(s, t, WantMutex)
    case Advance(t) => Advanced(s, t)
  }

  // ---- invariants

  /** The counter says which warrants exist, and the two kinds exclude each other. */
  predicate Counted(s: State) {
    && s.shared < EXCLUSIVE_SIGNPOST
    && (|| (s.exclusive == 0 && s.count == s.shared)
        || (s.exclusive == 1 && s.shared == 0 && s.count == EXCLUSIVE_SIGNPOST))
  }

  predicate MutexOk(s: State) {
    forall t | t in s.pcs :: InMutex(s.pcs[t]) <==> s.mutex == Some(t)
  }

  predicate MutexHeld(s: State) {
    s.mutex.Some? ==> s.mutex.value in s.pcs
  }

  predicate ThreadsOk(s: State) {
    forall t | t in s.pcs ::
      match s.pcs[t]
      case FastTry(v) => v != EXCLUSIVE_SIGNPOST
      case SlowTry(v) => v != EXCLUSIVE_SIGNPOST
      case DropTry(v) => v > 0 && v != EXCLUSIVE_SIGNPOST
      // the signpost is taken down only by someone who holds the mutex
      case SlowWait => s.count == EXCLUSIVE_SIGNPOST
      case DropPanic => false
      case ClearPanic => false
      case _ => true
  }

  predicate Owned(s: State) {
    |Dropping(s)| <= s.shared && |Clearing(s)| <= s.exclusive
  }

  /** Someone is about to notify. */
  predicate Notifying(s: State) {
    s.mutex.Some? && s.mutex.value in s.pcs && s.pcs[s.mutex.value] == Notify
  }

  predicate Awaited(s: State) {
    (exists t :: t in s.pcs && s.pcs[t] == Waiting) ==> s.count == EXCLUSIVE_SIGNPOST || Notifying(s)
  }

  predicate Inv(s: State) {
    Counted(s) && MutexOk(s) && MutexHeld(s) && ThreadsOk(s) && Owned(s) && Awaited(s)
  }

  /** The exchange that would count the counter up into the signpost. */
  predicate Overflows(s: State, e: Step) {
    && e.Advance? && e.t in s.pcs && (s.pcs[e.t].FastTry? || s.pcs[e.t].SlowTry?)
    && s.pcs[e.t].v == s.count && s.count == EXCLUSIVE_SIGNPOST - 1
  }

  predicate Bounded(s: State, e: Step) {
    !Overflows(s, e)
  }

  lemma CountedKept(s: State, e: Step)
    requires Inv(s) && Enabled(s, e) && Bounded(s, e)
    ensures Counted(Apply(s, e))
  {
    hide MutexOk, MutexHeld, Awaited;
  }

  lemma MutexKept(s: State, e: Step)
    requires Inv(s) && Enabled(s, e)
    ensures MutexOk(Apply(s, e)) && MutexHeld(Apply(s, e))
  {
    MutexOkKept(s, e);
    MutexHeldKept(s, e);
  }

  lemma MutexOkKept(s: State, e: Step)
    requires Inv(s) && Enabled(s, e)
    ensures MutexOk(Apply(s, e))
  {
    hide Counted, Awaited, Owned, ThreadsOk, Dropping, Clearing;
  }

  lemma MutexHeldKept(s: State, e: Step)
    requires Inv(s) && Enabled(s, e)
    ensures MutexHeld(Apply(s, e))
  {
    hide Counted, Awaited, Owned, ThreadsOk, Dropping, Clearing;
  }

  lemma ThreadsKept(s: State, e: Step)
    requires Inv(s) && Enabled(s, e)
    ensures ThreadsOk(Apply(s, e))
  {
    hide Awaited, MutexHeld;
    OwnWarrant(s, e.t);
  }

  /** Whoever drops a warrant has one. */
  lemma OwnWarrant(s: State, t: ThreadId)
    requires Owned(s)
    ensures t in Dropping(s) ==> s.shared > 0
    ensures t in Clearing(s) ==> s.exclusive > 0
  {
  }

  lemma DroppingKept(s: State, e: Step)
    requires Inv(s) && Enabled(s, e)
    ensures |Dropping(Apply(s, e))| <= Apply(s, e).shared
  {
    hide Awaited, MutexHeld, MutexOk;
    OwnWarrant(s, e.t);
    CountChange(Dropping(s), Dropping(Apply(s, e)), e.t);
  }

  lemma ClearingKept(s: State, e: Step)
    requires Inv(s) && Enabled(s, e)
    ensures |Clearing(Apply(s, e))| <= Apply(s, e).exclusive
  {
    hide Awaited, MutexHeld, MutexOk;
    OwnWarrant(s, e.t);
    CountChange(Clearing(s), Clearing(Apply(s, e)), e.t);
  }

  /** Whoever waits after a step waited before, or has just begun to and saw the signpost. */
  lemma WaitedBefore(s: State, e: Step, u: ThreadId)
    requires Inv(s) && Enabled(s, e)
    requires u in Apply(s, e).pcs && Apply(s, e).pcs[u] == Waiting
    ensures s.count == EXCLUSIVE_SIGNPOST || Notifying(s)
    ensures e.Advance? && e.t in s.pcs ==> s.pcs[e.t] != Notify
  {
    hide Counted, Owned, MutexHeld, MutexOk, Dropping, Clearing;
  }

  /** The signpost stays up, or the notification stays to be sent. */
  lemma NoticeKept(s: State, e: Step)
    requires Inv(s) && Enabled(s, e) && (s.count == EXCLUSIVE_SIGNPOST || Notifying(s))
    requires e.Advance? && e.t in s.pcs ==> s.pcs[e.t] != Notify
    ensures Apply(s, e).count == EXCLUSIVE_SIGNPOST || Notifying(Apply(s, e))
  {
    hide Counted, Owned, Awaited, WakeAll, Dropping, Clearing;
  }

  lemma AwaitedKept(s: State, e: Step)
    requires Inv(s) && Enabled(s, e)
    ensures Awaited(Apply(s, e))
  {
    hide Inv, Enabled, Apply, Notifying;
    var s' := Apply(s, e);
    forall u | u in s'.pcs && s'.pcs[u] == Waiting ensures s'.count == EXCLUSIVE_SIGNPOST || Notifying(s') {
      WaitedBefore(s, e, u);
      NoticeKept(s, e);
    }
  }

  lemma StepKeeps(s: State, e: Step)
    requires Inv(s) && Enabled(s, e) && Bounded(s, e)
    ensures Inv(Apply(s, e))
  {
    CountedKept(s, e);
    MutexKept(s, e);
    ThreadsKept(s, e);
    DroppingKept(s, e);
    ClearingKept(s, e);
    AwaitedKept(s, e);
    hide Counted, MutexOk, MutexHeld, ThreadsOk, Awaited, Apply;
  }

  // ---- every run

  predicate Next(s: State, e: Step, s': State) {
    Enabled(s, e) && Bounded(s, e) && s' == Apply(s, e)
  }

  predicate Run(states: seq<State>, steps: seq<Step>) {
    && |states| == |steps| + 1
    && states[0] == INIT
    && forall i | 0 <= i < |steps| :: Next(states[i], steps[i], states[i+1])
  }

  lemma {:induction false} RunInv(states: seq<State>, steps: seq<Step>, i: nat)
    requires Run(states, steps) && i < |states|
    ensures Inv(states[i])
  {
    if i > 0 {
      RunInv(states, steps, i - 1);
      assert Next(states[i-1], steps[i-1], states[i-1+1]);
      StepKeeps(states[i-1], steps[i-1]);
    }
  }

  /** Exclusion: the counter shows the signpost exactly when there is an exclusive
      warrant, which is then the only warrant; otherwise it counts the warrants. */
  lemma Exclusion(states: seq<State>, steps: seq<Step>, i: nat)
    requires Run(states, steps) && i < |states|
    ensures var s := states[i];
            && (s.count == EXCLUSIVE_SIGNPOST <==> s.exclusive == 1 && s.shared == 0)
            && (s.count != EXCLUSIVE_SIGNPOST <==> s.exclusive == 0 && s.count == s.shared)
  {
    RunInv(states, steps, i);
  }

  /** An exclusive warrant is handed out exactly when there is no warrant at all. */
  lemma ExclusiveIffFree(states: seq<State>, steps: seq<Step>, i: nat)
    requires Run(states, steps) && i < |steps| && steps[i].GetExclusive?
    ensures states[i+1].exclusive > states[i].exclusive <==> states[i].shared == 0 && states[i].exclusive == 0
  {
    RunInv(states, steps, i);
    assert Next(states[i], steps[i], states[i+1]);
  }

  /** Neither `Drop` can fail its assertion, and the exclusive one leaves the counter at zero. */
  lemma DropsSucceed(states: seq<State>, steps: seq<Step>, i: nat, t: ThreadId)
    requires Run(states, steps) && i < |states| && t in states[i].pcs
    ensures states[i].pcs[t] != DropPanic && states[i].pcs[t] != ClearPanic
    ensures t in Dropping(states[i]) ==> 0 < states[i].count < EXCLUSIVE_SIGNPOST
    ensures t in Clearing(states[i]) ==> states[i].count == EXCLUSIVE_SIGNPOST
    ensures i < |steps| && steps[i] == Advance(t) && states[i].pcs[t] == ClearSignpost ==>
              states[i+1].count == 0 && states[i+1].exclusive == 0
  {
    RunInv(states, steps, i);
    OwnWarrant(states[i], t);
    if i < |steps| { assert Next(states[i], steps[i], states[i+1]); }
  }

  /** No lost wake-up: while a thread waits, the signpost is up, or the one that took it
      down holds the mutex and has its notification still to send. */
  lemma NoLostWakeUp(states: seq<State>, steps: seq<Step>, i: nat, t: ThreadId)
    requires Run(states, steps) && i < |states|
    requires t in states[i].pcs && states[i].pcs[t] == Waiting
    ensures states[i].exclusive == 1 || Notifying(states[i])
  {
    RunInv(states, steps, i);
  }

  /** A notification leaves nobody waiting, and nobody starts to wait before the signpost
      is up again. */
  lemma NotifyWakesAll(states: seq<State>, steps: seq<Step>, i: nat, t: ThreadId, u: ThreadId)
    requires Run(states, steps) && i < |steps|
    requires steps[i] == Advance(t) && t in states[i].pcs && states[i].pcs[t] == Notify
    ensures u in states[i].pcs && states[i].pcs[u] == Waiting ==>
            u in states[i+1].pcs && states[i+1].pcs[u] == WantMutex
    ensures u in states[i+1].pcs ==> states[i+1].pcs[u] != Waiting && states[i+1].pcs[u] != SlowWait
  {
    RunInv(states, steps, i);
    RunInv(states, steps, i + 1);
    assert Next(states[i], steps[i], states[i+1]);
  }

  // ---- the bound

  /** A step leaves the signpost standing for an exclusive warrant exactly when it does not
      count the counter up into it. */
  lemma BoundIsNeeded(s: State, e: Step)
    requires Inv(s) && Enabled(s, e)
    ensures (Apply(s, e).count == EXCLUSIVE_SIGNPOST <==> Apply(s, e).exclusive == 1) <==> !Overflows(s, e)
  {
    hide MutexOk, MutexHeld, Awaited, Owned;
    if !Overflows(s, e) { CountedKept(s, e); }
  }

  /** `n` threads after each other take a warrant and keep it. */
  lemma {:induction false} ManyWarrants(n: nat) returns (states: seq<State>, steps: seq<Step>)
    requires n < EXCLUSIVE_SIGNPOST
    ensures Run(states, steps) && states[|steps|] == State(n, None, map[], n, 0)
  {
    if n == 0 {
      states, steps := [INIT], [];
    } else {
      states, steps := ManyWarrants(n - 1);
      var s0 := states[|steps|];
      var s1, s2 := s0.(pcs := map[0 := Load]), s0.(pcs := map[0 := FastTry(n - 1)]);
      var s3 := State(n, None, map[], n, 0);
      assert Next(s0, GetWarrant(0), s1);
      assert Next(s1, Advance(0), s2);
      assert Next(s2, Advance(0), s3);
      hide Next;
      states := states + [s1, s2, s3];
      steps := steps + [GetWarrant(0), Advance(0), Advance(0)];
    }
  }

  /** The states that follow `s` by `es`, whether or not they overflow. */
  function After(s: State, es: seq<Step>): Option<State>
    decreases |es|
  {
    if es == [] then Some(s) else if Enabled(s, es[0]) then After(Apply(s, es[0]), es[1..]) else None
  }

  lemma AfterFirst(s: State, e: Step, es: seq<Step>)
    requires Enabled(s, e)
    ensures After(s, [e] + es) == After(Apply(s, e), es)
  {
    hide Enabled, Apply;
    assert ([e] + es)[1..] == es;
  }

  /** Thread `t`, alone and with the counter one below the signpost, takes a warrant. */
  lemma GetterOverflows(s: State, t: ThreadId) returns (es: seq<Step>)
    requires s.count == EXCLUSIVE_SIGNPOST - 1 && s.pcs == map[]
    ensures After(s, es) == Some(s.(count := EXCLUSIVE_SIGNPOST, shared := s.shared + 1))
  {
    var a := Advance(t);
    var s1, s2 := s.(pcs := map[t := Load]), s.(pcs := map[t := FastTry(s.count)]);
    var s3 := s.(count := EXCLUSIVE_SIGNPOST, shared := s.shared + 1);
    assert Enabled(s, GetWarrant(t)) && Apply(s, GetWarrant(t)) == s1;
    assert Enabled(s1, a) && Apply(s1, a) == s2;
    assert Enabled(s2, a) && Apply(s2, a) == s3;
    hide Enabled, Apply;
    AfterFirst(s2, a, []);
    AfterFirst(s1, a, [a] + []);
    AfterFirst(s, GetWarrant(t), [a] + ([a] + []));
    es := [GetWarrant(t)] + ([a] + ([a] + []));
  }

  /** Thread `t`, alone and with the signpost up, goes for the mutex. */
  lemma GetterSeesSignpost(s: State, t: ThreadId) returns (es: seq<Step>)
    requires s.count == EXCLUSIVE_SIGNPOST && s.pcs == map[]
    ensures After(s, es) == Some(s.(pcs := map[t := WantMutex]))
  {
    var a := Advance(t);
    var s1, s2 := s.(pcs := map[t := Load]), s.(pcs := map[t := WantMutex]);
    assert Enabled(s, GetWarrant(t)) && Apply(s, GetWarrant(t)) == s1;
    assert Enabled(s1, a) && Apply(s1, a) == s2;
    hide Enabled, Apply;
    AfterFirst(s1, a, []);
    AfterFirst(s, GetWarrant(t), [a] + []);
    es := [GetWarrant(t)] + ([a] + []);
  }

  /** It takes the mutex, finds the signpost again and waits. */
  lemma GetterWaits(s: State, t: ThreadId) returns (es: seq<Step>)
    requires s.count == EXCLUSIVE_SIGNPOST && s.mutex == None && s.pcs == map[t := WantMutex]
    ensures After(s, es) == Some(s.(pcs := map[t := Waiting]))
  {
    var a := Advance(t);
    var s1 := s.(pcs := map[t := SlowLoad], mutex := Some(t));
    var s2, s3 := s1.(pcs := map[t := SlowWait]), s.(pcs := map[t := Waiting]);
    assert Enabled(s, a) && Apply(s, a) == s1;
    assert Enabled(s1, a) && Apply(s1, a) == s2;
    assert Enabled(s2, a) && Apply(s2, a) == s3;
    hide Enabled, Apply;
    AfterFirst(s2, a, []);
    AfterFirst(s1, a, [a] + []);
    AfterFirst(s, a, [a] + ([a] + []));
    es := [a] + ([a] + ([a] + []));
  }

  /** With 2^64-2 warrants out, which a run can reach, the next one puts the signpost up
      with no exclusive warrant there, and the getter after it waits with nobody to
      notify it. */
  lemma OverflowStrands() returns (states: seq<State>, steps: seq<Step>, es: seq<Step>, s': State)
    ensures Run(states, steps) && After(states[|steps|], es) == Some(s')
    ensures s'.count == EXCLUSIVE_SIGNPOST && s'.exclusive == 0 && s'.shared == EXCLUSIVE_SIGNPOST
    ensures s'.pcs == map[1 := Waiting] && s'.mutex == None
  {
    hide After, Enabled, Apply, Next;
    states, steps := ManyWarrants(EXCLUSIVE_SIGNPOST - 1);
    var s0 := states[|steps|];
    var first := GetterOverflows(s0, 0);
    var s3 := s0.(count := EXCLUSIVE_SIGNPOST, shared := s0.shared + 1);
    var second := GetterSeesSignpost(s3, 1);
    var s5 := s3.(pcs := map[1 := WantMutex]);
    var third := GetterWaits(s5, 1);
    AfterOn(s3, second, s5, third);
    AfterOn(s0, first, s3, second + third);
    es, s' := first + (second + third), s5.(pcs := map[1 := Waiting]);
  }

  lemma {:induction false} AfterOn(s: State, es: seq<Step>, s1: State, es': seq<Step>)
    requires After(s, es) == Some(s1)
    ensures After(s, es + es') == After(s1, es')
    decreases |es|
  {
    hide Enabled, Apply;
    if es == [] {
      assert es + es' == es';
    } else {
      AfterOn(Apply(s, es[0]), es[1..], s1, es');
      assert (es + es')[1..] == es[1..] + es';
    }
  }
}
