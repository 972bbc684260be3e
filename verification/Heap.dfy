// The state shared by the program, the collector and the background dropper, and
// the definition of liveness that the safety theorems are about.
//
// The two tracking lists are modelled by the items they hold (ChunkedList.dfy shows
// that the slot-level lists implement such sets), each allocation's lockout by the
// lock value it encodes (LockoutProtocol.dfy), and the atomic-protecting spinlock by
// the set of threads that hold an inclusive guard (SpinlockProtocol.dfy).
module Heap {
  import opened Basics

  type DataId = nat
  type HandleId = nat
  type ThreadId = nat

  /** Where a smart pointer value physically is. The collector never sees this field:
      it has to infer it. `reported` says whether the `Scan` implementation of the
      owning allocation reports the handle (it may under-report). A handle that has
      left the tracking list is `Gone`. */
  datatype Owner = Program | Inside(data: DataId, reported: bool) | Gone

  /** One `GcHandle`: its target, whether the target is an `AtomicGc` cell, and the
      collection in which it was last found inside an allocation. */
  datatype Handle = Handle(target: DataId, dynamic: bool, stamp: nat, owner: Owner)

  datatype Lock = Shared(n: nat) | Exclusive

  /** `Building`: memory reserved, not written. `Ready`: written, not in the data list.
      `Swept`: taken off the data list, not deallocated yet. */
  datatype Status = Building | Ready | Tracked | Swept | Freed

  /** One `GcData`. */
  datatype Datum = Datum(mark: nat, lock: Lock, status: Status, deallocated: bool)

  /** What one worker of the mark phase is doing, one value per atomic access:
      it took a handle; it read a non-zero mark; it is scanning, with the handles not
      yet examined and possibly one whose target it saw unmarked. */
  datatype Worker =
    | Resting
    | Taken(handle: HandleId)
    | Loaded(handle: HandleId)
    | Scanning(data: DataId, rem: set<HandleId>, pend: Option<HandleId>)

  /** Where the collection is. In `Mark`, `roots` and `inUse` remember what the phase
      started from and `scans` how often each allocation was scanned. */
  datatype Phase =
    | Quiet
    | Syncing(ticket: nat)
    | DataPass(dataTodo: set<DataId>, noted: set<DataId>)
    | HandlePass(todo: set<HandleId>, found: set<HandleId>)
    | Mark(queue: multiset<HandleId>, workers: seq<Worker>,
           roots: set<HandleId>, inUse: set<DataId>, scans: multiset<DataId>)
    | Release
    | Sweep(sweepTodo: set<DataId>, batch: set<DataId>)
    | Finish

  datatype Message = Batch(batch: set<DataId>) | SyncUp(ticket: nat)

  datatype Work =
    | NoWork
    | Flagging(batch: set<DataId>, left: set<DataId>)
    | Dropping(batch: set<DataId>, left: set<DataId>)

  /** `guards` maps each thread holding an inclusive guard to the raw pointer it has
      read from an atomic cell and not yet wrapped in a registered handle. `counting`
      maps data that a thread has put into the data list, and whose insertion it has not
      counted yet, to the handle that this thread holds and is going to return. */
  datatype State = State(
    epoch: nat,
    handles: map<HandleId, Handle>,
    data: map<DataId, Datum>,
    phase: Phase,
    guards: map<ThreadId, Option<DataId>>,
    mail: seq<Message>,
    work: Work,
    acked: set<nat>,
    tickets: nat,
    counting: map<DataId, HandleId>)

  /** Collection numbers start at 2, so that the previous number is never the mark of
      a new allocation. */
  const INIT: State := State(2, map[], map[], Quiet, map[], [], NoWork, {}, 0, map[])

  predicate Registered(s: State, h: HandleId) {
    h in s.handles && s.handles[h].owner != Gone
  }

  predicate InUse(s: State, d: DataId) {
    d in s.data && s.data[d].lock.Shared? && s.data[d].lock.n > 0
  }

  /** `h` is held by the program itself or lies inside an allocation of `S`. */
  predicate HeldBy(s: State, h: HandleId, S: set<DataId>) {
    h in s.handles && match s.handles[h].owner
      case Program => true
      case Inside(d, _) => d in S
      case Gone => false
  }

  /** `S` contains what the program uses directly and everything its members point to. */
  ghost predicate LiveClosed(s: State, S: set<DataId>) {
    && (forall d | InUse(s, d) :: d in S)
    && (forall t | t in s.guards && s.guards[t].Some? :: s.guards[t].value in S)
    && (forall h | HeldBy(s, h, S) :: s.handles[h].target in S)
  }

  /** An allocation is live when it is in every such set. */
  ghost predicate Live(s: State, d: DataId) {
    forall S | LiveClosed(s, S) :: d in S
  }

  /** The program can get hold of the pointer `h`: it owns it, or it can walk to the
      allocation that contains it. */
  ghost predicate LiveOwner(s: State, h: HandleId) {
    h in s.handles && match s.handles[h].owner
      case Program => true
      case Inside(d, _) => Live(s, d)
      case Gone => false
  }

  // ---- liveness as paths

  /** `p` is a chain of handles, the first one held by the program or by an allocation
      in use, each next one inside the target of the one before. */
  ghost predicate HandlePath(s: State, p: seq<HandleId>) {
    && (forall i | 0 <= i < |p| :: p[i] in s.handles)
    && (p != [] ==>
          match s.handles[p[0]].owner
          case Program => true
          case Inside(d, _) => Direct(s, d)
          case Gone => false)
    && (forall i | 0 < i < |p| ::
          s.handles[p[i]].owner.Inside? && s.handles[p[i]].owner.data == s.handles[p[i-1]].target)
  }

  ghost predicate Direct(s: State, d: DataId) {
    || InUse(s, d)
    || exists t :: t in s.guards && s.guards[t] == Some(d)
  }

  ghost predicate PathTo(s: State, d: DataId) {
    || Direct(s, d)
    || exists p :: p != [] && HandlePath(s, p) && s.handles[p[|p|-1]].target == d
  }

  ghost predicate WellTyped(s: State) {
    && (forall h | h in s.handles :: s.handles[h].target in s.data)
    && (forall t | t in s.guards && s.guards[t].Some? :: s.guards[t].value in s.data)
  }

  lemma {:induction false} PathEndsInside(s: State, p: seq<HandleId>, S: set<DataId>)
    requires p != [] && HandlePath(s, p) && LiveClosed(s, S)
    ensures s.handles[p[|p|-1]].target in S
  {
    var last := p[|p|-1];
    if |p| == 1 {
      assert HeldBy(s, last, S);
    } else {
      var q := p[..|p|-1];
      assert HandlePath(s, q) by {
        forall i | 0 < i < |q|
          ensures s.handles[q[i]].owner.Inside? && s.handles[q[i]].owner.data == s.handles[q[i-1]].target
        {
          assert q[i] == p[i] && q[i-1] == p[i-1];
        }
      }
      PathEndsInside(s, q, S);
      assert p[|p|-2] == q[|q|-1];
      assert HeldBy(s, last, S);
    }
  }

  /** Liveness by least closed set and liveness by paths are the same notion. */
  lemma LiveIsReachability(s: State, d: DataId)
    requires WellTyped(s)
    ensures Live(s, d) <==> PathTo(s, d)
  {
    if PathTo(s, d) && !Direct(s, d) {
      var p :| p != [] && HandlePath(s, p) && s.handles[p[|p|-1]].target == d;
      forall S | LiveClosed(s, S) ensures d in S {
        PathEndsInside(s, p, S);
      }
    }
    var S := set x | x in s.data && PathTo(s, x);
    assert LiveClosed(s, S) by {
      forall h | HeldBy(s, h, S) ensures s.handles[h].target in S {
        ExtendPath(s, h, S);
      }
    }
  }

  lemma ExtendPath(s: State, h: HandleId, S: set<DataId>)
    requires WellTyped(s) && HeldBy(s, h, S)
    requires forall x | x in S :: PathTo(s, x)
    ensures PathTo(s, s.handles[h].target)
  {
    var o := s.handles[h].owner;
    if o.Program? || Direct(s, o.data) {
      assert HandlePath(s, [h]);
    } else {
      var p :| p != [] && HandlePath(s, p) && s.handles[p[|p|-1]].target == o.data;
      assert HandlePath(s, p + [h]);
    }
  }
}
