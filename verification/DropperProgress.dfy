// The dropper always can go on while it has something to do, and every request for a
// sync-up is answered after a number of its steps that is known when it is made.
module DropperProgress {
  import opened Basics
  import opened Heap
  import opened Steps
  import opened Invariant
  import opened Theorems
  import opened Pointers
  import U = UntimelyDrop

  /** The handles that lie in `ds`. */
  function Inside(s: State, ds: set<DataId>): set<HandleId> {
    set h | h in s.handles && s.handles[h].owner.Inside? && s.handles[h].owner.data in ds
  }

  /** How many steps the batch being dropped takes at most. A destructor's reads do not count. */
  function WorkLeft(s: State): nat {
    match s.work
    case NoWork => 0
    case Flagging(batch, left) => |left| + |batch| + 2 + |Inside(s, batch)|
    case Dropping(_, left) => |left| + 1 + |Inside(s, left)|
  }

  function MailCost(s: State, mail: seq<Message>): nat {
    if mail == [] then 0
    else MailCost(s, mail[1..])
         + match mail[0]
           case Batch(batch) => 2 * |batch| + 3 + |Inside(s, batch)|
           case SyncUp(_) => 1
  }

  /** At most so many steps until the dropper has dealt with the first `n` messages. */
  function Ahead(s: State, n: nat): nat
    requires n <= |s.mail|
  {
    WorkLeft(s) + MailCost(s, s.mail[..n])
  }

  predicate Advances(e: Step) {
    e.ByDropper? && !e.dropper.DropGet?
  }

  /** While a batch is under way or a message is waiting, the dropper can take a step. */
  lemma DropperCanGoOn(states: seq<State>, steps: seq<Step>, i: nat) returns (e: Step)
    requires Run(states, steps) && i < |states| && (!states[i].work.NoWork? || states[i].mail != [])
    ensures Advances(e) && Enabled(states[i], e)
  {
    RunInv(states, steps, i);
    var p := NextOf(states[i]);
    e := ByDropper(p);
  }

  lemma NextOf(s: State) returns (p: DropperStep)
    requires Inv(s) && (!s.work.NoWork? || s.mail != [])
    ensures !p.DropGet? && DropperEnabled(s, p)
  {
    hide Shape, Safe, Tracing, MailInv;
    match s.work {
      case NoWork => p := Receive;
      case Flagging(_, left) =>
        if d :| d in left { assert IsSwept(s, d); p := FlagOne(d); } else { p := FlagEnd; }
      case Dropping(_, left) =>
        if d :| d in left {
          if h :| h in ReportedIn(s, d) { p := Invalidate(d, h); } else { p := Free(d); }
        } else {
          p := BatchEnd;
        }
    }
  }

  // ---- the bound

  /** Nothing is put into swept data. */
  lemma NothingMovesIn(s: State, e: Step, ds: set<DataId>)
    requires Inv(s) && Enabled(s, e) && forall d | d in ds :: IsSwept(s, d)
    ensures Inside(Apply(s, e), ds) <= Inside(s, ds)
  {
    forall h | h in Inside(Apply(s, e), ds) ensures h in Inside(s, ds) {
      OwnerByStep(s, e, h);
      NoMoveIntoSwept(s, e, h);
      hide Inv, Enabled, Apply, MovedBy;
      assert OwnerOf(Apply(s, e), h) != None;
    }
  }

  lemma NoMoveIntoSwept(s: State, e: Step, h: HandleId)
    requires Inv(s) && Enabled(s, e)
    ensures var o := MovedBy(e, h); o.Some? && o.value.Inside? ==> !IsSwept(s, o.value.data)
  {
    hide HandleInv, MarkInv, StampInv, Safe, Post, Tracing, LiveOwner, CollectorEnabled, WorkerEnabled;
    var o := MovedBy(e, h);
    if o.Some? && o.value.Inside? && o.value.data in s.data { assert DatumOk(s, s.data[o.value.data]); }
  }

  lemma SweptBatches(s: State)
    requires Inv(s)
    ensures forall k | 0 <= k < |s.mail| && s.mail[k].Batch? :: forall d | d in s.mail[k].batch :: IsSwept(s, d)
    ensures s.work.Flagging? ==> s.work.left <= s.work.batch && forall d | d in s.work.batch :: IsSwept(s, d)
    ensures s.work.Dropping? ==> forall d | d in s.work.left :: IsSwept(s, d)
  {
    hide Shape, Safe, Tracing, MailInv;
  }

  /** No handle is put into what is waiting to be dropped. */
  ghost predicate Drained(s: State, s': State, mail: seq<Message>) {
    forall k | 0 <= k < |mail| && mail[k].Batch? :: Inside(s', mail[k].batch) <= Inside(s, mail[k].batch)
  }

  lemma MailDrained(s: State, e: Step)
    requires Inv(s) && Enabled(s, e)
    ensures Drained(s, Apply(s, e), s.mail)
  {
    SweptBatches(s);
    forall k | 0 <= k < |s.mail| && s.mail[k].Batch?
      ensures Inside(Apply(s, e), s.mail[k].batch) <= Inside(s, s.mail[k].batch)
    {
      NothingMovesIn(s, e, s.mail[k].batch);
    }
    hide Inv, Enabled, Apply, Inside;
  }

  lemma {:induction false} CostDrained(s: State, s': State, mail: seq<Message>)
    requires Drained(s, s', mail)
    ensures MailCost(s', mail) <= MailCost(s, mail)
  {
    hide Inside;
    if mail != [] {
      assert mail[1..] == [] || forall k | 0 <= k < |mail[1..]| :: mail[1..][k] == mail[k+1];
      CostDrained(s, s', mail[1..]);
      if mail[0].Batch? { SubsetSize(Inside(s', mail[0].batch), Inside(s, mail[0].batch)); }
    }
  }

  /** A step that is not the dropper's leaves its work and can only add to the mail. */
  ghost predicate MailStep(s: State, s': State) {
    s'.work == s.work && s'.acked == s.acked && |s.mail| <= |s'.mail| && s'.mail[..|s.mail|] == s.mail
  }

  lemma ProgramMail(s: State, p: ProgramStep)
    requires ProgramEnabled(s, p)
    ensures MailStep(s, ProgramApply(s, p))
    ensures p.UserSync? ==> ProgramApply(s, p).mail == s.mail + [SyncUp(s.tickets)]
    ensures ProgramApply(s, p).tickets == s.tickets + if p.UserSync? then 1 else 0
  {
    hide LiveOwner;
  }

  lemma CollectorMail(s: State, c: CollectorStep)
    requires CollectorEnabled(s, c)
    ensures MailStep(s, CollectorApply(s, c))
    ensures c.Begin? ==> CollectorApply(s, c).mail == s.mail + [SyncUp(s.tickets)]
    ensures CollectorApply(s, c).tickets == s.tickets + if c.Begin? then 1 else 0
  {
  }

  lemma WorkerMail(s: State, w: WorkerStep)
    requires WorkerEnabled(s, w)
    ensures MailStep(s, WorkerApply(s, w)) && WorkerApply(s, w).tickets == s.tickets
  {
  }

  lemma DropperMail(s: State, p: DropperStep)
    requires DropperEnabled(s, p) && p.DropGet?
    ensures MailStep(s, DropperApply(s, p))
  {
  }

  lemma OthersMail(s: State, e: Step)
    requires Enabled(s, e) && !Advances(e)
    ensures MailStep(s, Apply(s, e))
  {
    match e {
      case ByProgram(p) => ProgramMail(s, p); hide ProgramEnabled, ProgramApply;
      case ByCollector(c) => CollectorMail(s, c); hide CollectorEnabled, CollectorApply;
      case ByWorker(w) => WorkerMail(s, w); hide WorkerEnabled, WorkerApply;
      case ByDropper(p) => DropperMail(s, p); hide DropperEnabled, DropperApply;
    }
  }

  lemma WorkDrained(s: State, e: Step)
    requires Inv(s) && Enabled(s, e)
    ensures s.work.Flagging? ==> |Inside(Apply(s, e), s.work.batch)| <= |Inside(s, s.work.batch)|
    ensures s.work.Dropping? ==> |Inside(Apply(s, e), s.work.left)| <= |Inside(s, s.work.left)|
  {
    SweptBatches(s);
    if s.work.Flagging? {
      NothingMovesIn(s, e, s.work.batch);
      SubsetSize(Inside(Apply(s, e), s.work.batch), Inside(s, s.work.batch));
    } else if s.work.Dropping? {
      NothingMovesIn(s, e, s.work.left);
      SubsetSize(Inside(Apply(s, e), s.work.left), Inside(s, s.work.left));
    }
    hide Inv, Enabled, Apply, Inside;
  }

  /** Nobody else makes the way to a message longer. */
  lemma OthersKeepAhead(s: State, e: Step, n: nat)
    requires Inv(s) && Enabled(s, e) && !Advances(e) && n <= |s.mail|
    ensures n <= |Apply(s, e).mail| && Apply(s, e).mail[..n] == s.mail[..n] && Apply(s, e).acked == s.acked
    ensures Ahead(Apply(s, e), n) <= Ahead(s, n)
  {
    hide Inv, Enabled, Apply, Inside;
    var s' := Apply(s, e);
    OthersMail(s, e);
    assert s'.mail[..n] == s.mail[..|s.mail|][..n];
    WorkDrained(s, e);
    MailDrained(s, e);
    CostDrained(s, s', s.mail[..n]);
  }

  lemma FlagLowers(s: State, p: DropperStep)
    requires DropperEnabled(s, p) && (p.FlagOne? || p.FlagEnd? || p.BatchEnd?)
    ensures WorkLeft(DropperApply(s, p)) < WorkLeft(s)
  {
  }

  lemma InvalidateLowers(s: State, p: DropperStep)
    requires DropperEnabled(s, p) && p.Invalidate?
    ensures WorkLeft(DropperApply(s, p)) < WorkLeft(s)
  {
    assert Inside(DropperApply(s, p), s.work.left) == Inside(s, s.work.left) - {p.h};
  }

  lemma FreeLowers(s: State, p: DropperStep)
    requires DropperEnabled(s, p) && p.Free?
    ensures WorkLeft(DropperApply(s, p)) < WorkLeft(s)
  {
    SubsetSize(Inside(DropperApply(s, p), s.work.left - {p.d}), Inside(s, s.work.left));
  }

  lemma WorkLowered(s: State, p: DropperStep)
    requires DropperEnabled(s, p) && !p.DropGet? && !p.Receive?
    ensures WorkLeft(DropperApply(s, p)) < WorkLeft(s)
    ensures DropperApply(s, p).mail == s.mail && DropperApply(s, p).acked == s.acked
  {
    if p.Invalidate? {
      InvalidateLowers(s, p);
    } else if p.Free? {
      FreeLowers(s, p);
    } else {
      FlagLowers(s, p);
    }
    hide WorkLeft;
  }

  lemma ReceiveLowers(s: State)
    requires DropperEnabled(s, Receive)
    ensures var s' := DropperApply(s, Receive);
            && s'.mail == s.mail[1..] && s'.handles == s.handles
            && WorkLeft(s') + 1 == MailCost(s, [s.mail[0]])
            && s'.acked == if s.mail[0].SyncUp? then s.acked + {s.mail[0].ticket} else s.acked
  {
  }

  /** Every step of the dropper shortens the way to a message, and at its end deals with it. */
  lemma DropperAdvances(s: State, p: DropperStep, k: nat)
    requires Inv(s) && DropperEnabled(s, p) && !p.DropGet? && k < |s.mail| && s.mail[k].SyncUp?
    ensures var s', k' := DropperApply(s, p), if p.Receive? then k - 1 else k;
            if k' < 0 then s.mail[k].ticket in s'.acked
            else k' < |s'.mail| && s'.mail[k'] == s.mail[k] && Ahead(s', k' + 1) < Ahead(s, k + 1)
  {
    MailDrained(s, ByDropper(p));
    if p.Receive? {
      ReceiveLowers(s);
      hide Inv, DropperEnabled, DropperApply, Inside;
      var s' := DropperApply(s, p);
      assert s.mail[..k+1][1..] == s.mail[1..][..k];
      if k > 0 {
        forall j | 0 <= j < |s'.mail| ensures s'.mail[j] == s.mail[j+1] {}
        assert Drained(s, s', s'.mail[..k]);
        CostDrained(s, s', s'.mail[..k]);
      }
    } else {
      WorkLowered(s, p);
      hide Inv, DropperEnabled, DropperApply, Inside;
      CostDrained(s, DropperApply(s, p), s.mail[..k+1]);
    }
  }

  // ---- over a run

  function DropperSteps(steps: seq<Step>, i: nat, m: nat): int
    requires i <= |steps| && m <= |steps|
  {
    Tally(steps, m, e => Advances(e)) - Tally(steps, i, e => Advances(e))
  }

  lemma AckedStay(s: State, e: Step)
    requires Enabled(s, e)
    ensures s.acked <= Apply(s, e).acked
  {
    if Advances(e) {
      if e.dropper.Receive? { ReceiveLowers(s); } else { WorkLowered(s, e.dropper); }
    } else {
      OthersMail(s, e);
    }
    hide Enabled, Apply, WorkLeft, MailCost;
  }

  /** The request comes nearer by at least one with every step of the dropper. */
  lemma {:induction false} ComesNearer(states: seq<State>, steps: seq<Step>, i: nat, m: nat, k: nat) returns (k': int)
    requires Run(states, steps) && i <= m < |states|
    requires k < |states[i].mail| && states[i].mail[k].SyncUp?
    ensures m <= |steps|
    ensures states[i].mail[k].ticket in states[m].acked
            || (&& 0 <= k' < |states[m].mail| && states[m].mail[k'] == states[i].mail[k]
                && Ahead(states[m], k' + 1) + DropperSteps(steps, i, m) <= Ahead(states[i], k + 1))
  {
    hide Inv, Enabled, Apply, Ahead, Advances;
    RunLength(states, steps);
    k' := k;
    if i < m {
      k' := ComesNearer(states, steps, i, m - 1, k);
      RunInv(states, steps, m - 1);
      StepOf(states, steps, m - 1);
      var s, e := states[m-1], steps[m-1];
      if states[i].mail[k].ticket in s.acked {
        AckedStay(s, e);
      } else if Advances(e) {
        DropperIs(s, e);
        DropperAdvances(s, e.dropper, k');
        k' := if e.dropper.Receive? then k' - 1 else k';
      } else {
        OthersKeepAhead(s, e, k' + 1);
        assert Apply(s, e).mail[..k'+1][k'] == s.mail[..k'+1][k'];
      }
    }
  }

  lemma DropperIs(s: State, e: Step)
    requires Enabled(s, e) && Advances(e)
    ensures e.ByDropper? && DropperEnabled(s, e.dropper) && !e.dropper.DropGet?
    ensures Apply(s, e) == DropperApply(s, e.dropper)
  {
    hide DropperEnabled, DropperApply;
  }

  lemma SomethingAhead(s: State, n: nat)
    requires 0 < n <= |s.mail|
    ensures Ahead(s, n) > 0
  {
    hide WorkLeft, Inside;
  }

  predicate Requests(e: Step) {
    e == ByProgram(UserSync) || e == ByCollector(Begin)
  }

  lemma RequestIsSent(s: State, e: Step)
    requires Enabled(s, e) && Requests(e)
    ensures Apply(s, e).mail == s.mail + [SyncUp(s.tickets)]
    ensures Apply(s, e).work == s.work && Apply(s, e).acked == s.acked
  {
  }

  /** Every request to sync up, a program's or the collector's, is answered as soon as the
      dropper has taken as many steps as lay ahead when it was made. */
  lemma RequestIsAnswered(states: seq<State>, steps: seq<Step>, j: nat, m: nat)
    requires Run(states, steps) && j < m < |states| && j < |steps| && Requests(steps[j])
    requires m <= |steps| && DropperSteps(steps, j + 1, m) >= Ahead(states[j+1], |states[j+1].mail|)
    ensures states[j].tickets in states[m].acked
  {
    hide Enabled, Apply, Ahead, DropperSteps;
    StepOf(states, steps, j);
    RequestIsSent(states[j], steps[j]);
    var k := |states[j].mail|;
    var k' := ComesNearer(states, steps, j + 1, m, k);
    if states[j].tickets !in states[m].acked { SomethingAhead(states[m], k' + 1); }
  }

  // ---- what an answer means

  /** `d` is freed, or in the hands of the dropper, or in the mail before message `k`. */
  ghost predicate Before(s: State, d: DataId, k: nat) {
    && d in s.data
    && (|| s.data[d].status == Freed
        || (!s.work.NoWork? && d in s.work.batch)
        || exists x :: 0 <= x < k && x < |s.mail| && s.mail[x].Batch? && d in s.mail[x].batch)
  }

  /** The request with this ticket waits behind `d`, or it is answered and `d` is freed. */
  ghost predicate Waits(s: State, d: DataId, ticket: nat) {
    if ticket in s.acked then d in s.data && s.data[d].status == Freed
    else exists k :: 0 <= k < |s.mail| && s.mail[k] == SyncUp(ticket) && Before(s, d, k)
  }

  lemma BeforeByOthers(s: State, e: Step, d: DataId, k: nat)
    requires Enabled(s, e) && !Advances(e) && k < |s.mail| && Before(s, d, k)
    ensures Before(Apply(s, e), d, k)
  {
    OthersMail(s, e);
    StepFrame(s, e);
    hide Enabled, Apply;
    var s' := Apply(s, e);
    if x :| 0 <= x < k && x < |s.mail| && s.mail[x].Batch? && d in s.mail[x].batch {
      assert s'.mail[..|s.mail|][x] == s.mail[x];
    }
  }

  lemma BeforeByDropper(s: State, p: DropperStep, d: DataId, k: nat)
    requires BatchInv(s) && DropperEnabled(s, p) && !p.Receive? && k < |s.mail| && Before(s, d, k)
    ensures Before(DropperApply(s, p), d, k)
  {
  }

  lemma BeforeByReceive(s: State, d: DataId, k: nat)
    requires DropperEnabled(s, Receive) && k < |s.mail| && Before(s, d, k)
    ensures k > 0 ==> Before(DropperApply(s, Receive), d, k - 1)
    ensures d in s.data && (k == 0 ==> s.data[d].status == Freed)
    ensures DropperApply(s, Receive).data == s.data
  {
    var s' := DropperApply(s, Receive);
    if k > 0 && s.data[d].status != Freed {
      var x :| 0 <= x < k && x < |s.mail| && s.mail[x].Batch? && d in s.mail[x].batch;
      if x > 0 { assert s'.mail[x-1] == s.mail[x]; }
    }
  }

  lemma TicketsDiffer(s: State, k: nat)
    requires MailInv(s) && 0 < k < |s.mail| && s.mail[k].SyncUp?
    ensures s.mail[0].SyncUp? ==> s.mail[0].ticket != s.mail[k].ticket
  {
  }

  lemma WaitsByStep(s: State, e: Step, d: DataId, ticket: nat)
    requires Inv(s) && Enabled(s, e) && Waits(s, d, ticket)
    ensures Waits(Apply(s, e), d, ticket)
  {
    hide Shape, Safe, Tracing, Before, Enabled, Apply;
    var s' := Apply(s, e);
    AckedStay(s, e);
    if ticket in s.acked {
      StepFrame(s, e);
    } else {
      var k :| 0 <= k < |s.mail| && s.mail[k] == SyncUp(ticket) && Before(s, d, k);
      if !Advances(e) {
        BeforeByOthers(s, e, d, k);
        OthersMail(s, e);
        assert s'.mail[..|s.mail|][k] == s.mail[k];
      } else if e.dropper.Receive? {
        DropperIs(s, e);
        ReceiveLowers(s);
        BeforeByReceive(s, d, k);
        if k > 0 {
          TicketsDiffer(s, k);
          assert s'.mail[k-1] == s.mail[k] && Before(s', d, k - 1);
        }
      } else {
        DropperIs(s, e);
        WorkLowered(s, e.dropper);
        BeforeByDropper(s, e.dropper, d, k);
      }
    }
  }

  /** When a program's request is answered, all that had been swept by the collections that
      were through with their sweep when it was made has been deallocated. */
  lemma {:induction false} SyncWaitsForBatches(states: seq<State>, steps: seq<Step>, j: nat, m: nat, d: DataId)
    requires Run(states, steps) && j < m < |states| && j < |steps| && steps[j] == ByProgram(UserSync)
    requires IsSwept(states[j], d) && !states[j].phase.Sweep?
    ensures Waits(states[m], d, states[j].tickets)
    ensures states[j].tickets in states[m].acked ==> states[m].data[d].status == Freed
  {
    hide Inv, Enabled, Apply, Before;
    RunLength(states, steps);
    RunInv(states, steps, m - 1);
    StepOf(states, steps, m - 1);
    if m == j + 1 {
      SentBehind(states[j], d);
    } else {
      SyncWaitsForBatches(states, steps, j, m - 1, d);
      WaitsByStep(states[m-1], steps[m-1], d, states[j].tickets);
    }
  }

  lemma SentBehind(s: State, d: DataId)
    requires Inv(s) && IsSwept(s, d) && !s.phase.Sweep?
    ensures Enabled(s, ByProgram(UserSync)) && Waits(Apply(s, ByProgram(UserSync)), d, s.tickets)
  {
    hide Shape, Safe, Tracing;
    var s' := Apply(s, ByProgram(UserSync));
    assert s'.mail[|s.mail|] == SyncUp(s.tickets);
    assert Outstanding(s, d);
    assert Before(s', d, |s.mail|) by {
      if x :| 0 <= x < |s.mail| && s.mail[x].Batch? && d in s.mail[x].batch { assert s'.mail[x] == s.mail[x]; }
    }
  }

  lemma {:induction false} RepliesFirst(s: State, d: DataId, k: nat) returns (es: seq<Step>, s': State)
    requires NoBatch(s) && IsSwept(s, d) && k < |s.mail|
    ensures U.Leads(s, es, s') && s.mail[k].ticket in s'.acked && IsSwept(s', d)
    decreases k
  {
    var e := ByDropper(Receive);
    var s1 := Apply(s, e);
    assert NoBatch(s1) by {
      forall x | 0 <= x < |s1.mail| ensures s1.mail[x].SyncUp? { assert s1.mail[x] == s.mail[x+1]; }
    }
    var rest;
    if k == 0 {
      rest, s' := [], s1;
    } else {
      assert s1.mail[k-1] == s.mail[k];
      rest, s' := RepliesFirst(s1, d, k - 1);
    }
    hide Enabled, Apply;
    U.LeadsCons(s, e, rest, s');
    es := [e] + rest;
  }

  /** The condition is exact: a request made while a sweep is going on can be answered before
      anything that the sweep has taken out is deallocated. */
  lemma SyncOvertakesSweep(states: seq<State>, steps: seq<Step>, j: nat, d: DataId) returns (es: seq<Step>, s': State)
    requires Run(states, steps) && j < |steps| && steps[j] == ByProgram(UserSync)
    requires IsSwept(states[j], d) && states[j].phase.Sweep?
    ensures U.Leads(states[j+1], es, s') && states[j].tickets in s'.acked && IsSwept(s', d)
  {
    RunInv(states, steps, j);
    StepOf(states, steps, j);
    QueuedBehind(states[j], d);
    hide Inv, Enabled, Apply;
    es, s' := RepliesFirst(states[j+1], d, |states[j].mail|);
  }

  lemma QueuedBehind(s: State, d: DataId)
    requires Inv(s) && s.phase.Sweep? && IsSwept(s, d) && Enabled(s, ByProgram(UserSync))
    ensures var s' := Apply(s, ByProgram(UserSync));
            NoBatch(s') && IsSwept(s', d) && |s'.mail| == |s.mail| + 1 && s'.mail[|s.mail|] == SyncUp(s.tickets)
  {
    hide Shape, Safe, Tracing, BatchInv;
  }
}
