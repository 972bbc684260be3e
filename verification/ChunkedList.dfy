// The chunked list under any interleaving of inserts, removes, retains, iterations and
// growth: every atomic access to a slot, the free queue, the list head or the length
// counter is one step.
module ChunkedList {
  import opened Basics

  type ThreadId = nat
  type ChunkId = nat
  /** The identity of an `Arc`; each one is inserted at most once. */
  type Item = nat

  datatype Slot = Slot(chunk: ChunkId, idx: nat)

  /** What a thread inside an operation does next. */
  datatype Pc =
    | Inserting(x: Item)
    | Popped(x: Item, p: Slot)
    | Stored(x: Item, p: Slot)
    | Expanding(x: Item)
    | Built(x: Item, below: ChunkId, c: ChunkId)
    | Pushing(x: Item, c: ChunkId, i: nat)
    | Removing(x: Item, p: Slot)
    | Retaining(p: Slot)
    | Condemning(x: Item, p: Slot)
    | Cleared(p: Slot, retain: bool)
    | Returning(p: Slot, retain: bool)
    | Iterating(todo: set<Slot>, seen: multiset<Item>, atStart: set<Item>)

  /** `pcs` has the threads that are inside an operation. `order` lists the published
      chunks, oldest first; `home` remembers where each item was put, `issued` which
      items have been returned to a caller, `used` which ones were ever passed in. */
  datatype State = State(
    slots: map<Slot, Option<Item>>,
    free: seq<Slot>,
    head: ChunkId,
    next: map<ChunkId, Option<ChunkId>>,
    estimate: nat,
    pcs: map<ThreadId, Pc>,
    order: seq<ChunkId>,
    home: map<Item, Slot>,
    issued: set<Item>,
    used: set<Item>)

  function SlotsOf(c: ChunkId): set<Slot> {
    set i | 0 <= i < CHUNK_SIZE :: Slot(c, i)
  }

  function Empty(c: ChunkId): map<Slot, Option<Item>> {
    map p | p in SlotsOf(c) :: None
  }

  /** One empty chunk, with all its slots queued. */
  function Initial(): State {
    State(Empty(0), seq(CHUNK_SIZE, (i: nat) => Slot(0, i)), 0, map[0 := None], 0, map[], [0], map[], {}, {})
  }

  predicate Init(s: State) {
    s == Initial()
  }

  datatype Step =
    | InsertStart(t: ThreadId, x: Item)
    | Pop(t: ThreadId)
    | Store(t: ThreadId)
    | CountUp(t: ThreadId)
    | Build(t: ThreadId, c: ChunkId)
    | SwapHead(t: ThreadId)
    | Push(t: ThreadId)
    | RemoveStart(t: ThreadId, x: Item)
    | RemoveSwap(t: ThreadId)
    | RetainStart(t: ThreadId, c: ChunkId)
    | RetainLoad(t: ThreadId, keep: bool)
    | RetainSwap(t: ThreadId)
    | CountDown(t: ThreadId)
    | GiveBack(t: ThreadId)
    | IterStart(t: ThreadId, chain: seq<ChunkId>)
    | IterLoad(t: ThreadId, p: Slot)
    | IterEnd(t: ThreadId)

  predicate At(s: State, t: ThreadId) {
    t in s.pcs
  }

  /** `chain` is what following the `next` pointers from the head yields. */
  predicate Walk(s: State, chain: seq<ChunkId>) {
    && chain != [] && chain[0] == s.head
    && (forall i | 0 <= i < |chain| :: chain[i] in s.next)
    && (forall i | 0 <= i < |chain| - 1 :: s.next[chain[i]] == Some(chain[i+1]))
    && s.next[chain[|chain|-1]] == None
  }

  predicate Enabled(s: State, e: Step) {
    match e
    case InsertStart(t, x) => t !in s.pcs && x !in s.used
    case Pop(t) => At(s, t) && s.pcs[t].Inserting?
    case Store(t) => At(s, t) && s.pcs[t].Popped?
    case CountUp(t) => At(s, t) && s.pcs[t].Stored?
    case Build(t, c) =>
      && At(s, t) && s.pcs[t].Expanding? && c !in s.order
      && (forall u | u in s.pcs && s.pcs[u].Built? :: s.pcs[u].c != c)
    case SwapHead(t) => At(s, t) && s.pcs[t].Built?
    case Push(t) => At(s, t) && s.pcs[t].Pushing?
    case RemoveStart(t, x) => t !in s.pcs && x in s.issued && x in s.home
    case RemoveSwap(t) => At(s, t) && s.pcs[t].Removing? && s.pcs[t].p in s.slots
    case RetainStart(t, c) => t !in s.pcs && c in s.order
    case RetainLoad(t, _) => At(s, t) && s.pcs[t].Retaining? && s.pcs[t].p in s.slots
    case RetainSwap(t) => At(s, t) && s.pcs[t].Condemning? && s.pcs[t].p in s.slots
    case CountDown(t) => At(s, t) && s.pcs[t].Cleared?
    case GiveBack(t) => At(s, t) && s.pcs[t].Returning?
    case IterStart(t, chain) => t !in s.pcs && Walk(s, chain)
    case IterLoad(t, p) => At(s, t) && s.pcs[t].Iterating? && p in s.pcs[t].todo && p in s.slots
    case IterEnd(t) => At(s, t) && s.pcs[t].Iterating? && s.pcs[t].todo == {}
  }

  function Holding(s: State): set<Item> {
    set p | p in s.slots && s.slots[p].Some? :: s.slots[p].value
  }

  /** The compare-and-swap finds the item it is after. */
  predicate Clears(s: State, e: Step) {
    && (e.RemoveSwap? || e.RetainSwap?) && e.t in s.pcs && (s.pcs[e.t].Removing? || s.pcs[e.t].Condemning?)
    && s.pcs[e.t].p in s.slots && s.slots[s.pcs[e.t].p] == Some(s.pcs[e.t].x)
  }

  /** The compare-and-swap on the head finds it where the new chunk points to. */
  predicate Publishes(s: State, e: Step) {
    e.SwapHead? && e.t in s.pcs && s.pcs[e.t].Built? && s.head == s.pcs[e.t].below
  }

  /** The retain loop goes on to the slot after `p`, or is through with the chunk. */
  function RetainOn(p: Slot): Option<Pc> {
    if p.idx + 1 < CHUNK_SIZE then Some(Retaining(Slot(p.chunk, p.idx + 1))) else None
  }

  /** What the thread does next; `None` when its operation is over. */
  function After(s: State, e: Step): Option<Pc>
    requires Enabled(s, e)
  {
    match e
    case InsertStart(t, x) => Some(Inserting(x))
    case Pop(t) => Some(if s.free == [] then Expanding(s.pcs[t].x) else Popped(s.pcs[t].x, s.free[0]))
    case Store(t) => Some(Stored(s.pcs[t].x, s.pcs[t].p))
    case CountUp(t) => None
    case Build(t, c) => Some(Built(s.pcs[t].x, s.head, c))
    case SwapHead(t) =>
      Some(if Publishes(s, e) then Pushing(s.pcs[t].x, s.pcs[t].c, 0) else Expanding(s.pcs[t].x))
    case Push(t) =>
      Some(if s.pcs[t].i + 1 < CHUNK_SIZE then Pushing(s.pcs[t].x, s.pcs[t].c, s.pcs[t].i + 1)
           else Inserting(s.pcs[t].x))
    case RemoveStart(t, x) => Some(Removing(x, s.home[x]))
    case RemoveSwap(t) => if Clears(s, e) then Some(Cleared(s.pcs[t].p, false)) else None
    case RetainStart(t, c) => Some(Retaining(Slot(c, 0)))
    case RetainLoad(t, keep) =>
      var p := s.pcs[t].p;
      if s.slots[p] == None || keep then RetainOn(p) else Some(Condemning(s.slots[p].value, p))
    case RetainSwap(t) => if Clears(s, e) then Some(Cleared(s.pcs[t].p, true)) else RetainOn(s.pcs[t].p)
    case CountDown(t) => Some(Returning(s.pcs[t].p, s.pcs[t].retain))
    case GiveBack(t) => if s.pcs[t].retain then RetainOn(s.pcs[t].p) else None
    case IterStart(t, chain) =>
      Some(Iterating(set c, p | c in chain && p in SlotsOf(c) :: p, multiset{}, Holding(s)))
    case IterLoad(t, p) =>
      var w := s.pcs[t];
      Some(Iterating(w.todo - {p}, if s.slots[p].Some? then w.seen + multiset{s.slots[p].value} else w.seen, w.atStart))
    case IterEnd(t) => None
  }

  /** What the step does to the shared memory. */
  function Effect(s: State, e: Step): State
    requires Enabled(s, e)
  {
    match e
    case InsertStart(t, x) => s.(used := s.used + {x})
    case Pop(t) => if s.free == [] then s else s.(free := s.free[1..])
    case Store(t) =>
      s.(slots := s.slots[s.pcs[t].p := Some(s.pcs[t].x)], home := s.home[s.pcs[t].x := s.pcs[t].p])
    case CountUp(t) => s.(estimate := (s.estimate + 1) % WORD, issued := s.issued + {s.pcs[t].x})
    case SwapHead(t) =>
      var c := s.pcs[t].c;
      if Publishes(s, e) then
        s.(head := c, next := s.next[c := Some(s.pcs[t].below)], order := s.order + [c], slots := s.slots + Empty(c))
      else s
    case Push(t) => s.(free := s.free + [Slot(s.pcs[t].c, s.pcs[t].i)])
    case RemoveSwap(t) => if Clears(s, e) then s.(slots := s.slots[s.pcs[t].p := None]) else s
    case RetainSwap(t) => if Clears(s, e) then s.(slots := s.slots[s.pcs[t].p := None]) else s
    case CountDown(t) => s.(estimate := (s.estimate - 1) % WORD)
    case GiveBack(t) => s.(free := s.free + [s.pcs[t].p])
    case _ => s
  }

  function Apply(s: State, e: Step): State
    requires Enabled(s, e)
  {
    var pc := After(s, e);
    Effect(s, e).(pcs := if pc.Some? then s.pcs[e.t := pc.value] else s.pcs - {e.t})
  }

  // ---- invariants

  /** The chunks form one chain, newest first, and the slots are theirs. */
  ghost predicate Linked(s: State) {
    && s.order != [] && Distinct(s.order)
    && s.head == s.order[|s.order|-1]
    && (forall i | 0 <= i < |s.order| :: s.order[i] in s.next)
    && s.next[s.order[0]] == None
    && (forall i | 0 < i < |s.order| :: s.next[s.order[i]] == Some(s.order[i-1]))
    && (forall p :: p in s.slots <==> p.chunk in s.order && p.idx < CHUNK_SIZE)
  }

  /** Thread `t` alone is responsible for the empty slot `p`. */
  predicate Holds(s: State, t: ThreadId, p: Slot) {
    t in s.pcs && match s.pcs[t]
      case Popped(_, q) => q == p
      case Cleared(q, _) => q == p
      case Returning(q, _) => q == p
      case Pushing(_, c, i) => p.chunk == c && i <= p.idx < CHUNK_SIZE
      case _ => false
  }

  /** Each slot is occupied, or on the free queue once, or held by one thread. */
  ghost predicate Conserved(s: State) {
    && Distinct(s.free)
    && (forall p | p in s.free :: p in s.slots)
    && (forall t, p | Holds(s, t, p) :: p in s.slots)
    && (forall p | p in s.slots && s.slots[p].Some? :: p !in s.free)
    && (forall t, p | Holds(s, t, p) :: p !in s.free && (p in s.slots ==> s.slots[p] == None))
    && (forall t, u, p | Holds(s, t, p) && Holds(s, u, p) :: t == u)
    && (forall p | p in s.slots :: s.slots[p].Some? || p in s.free || exists t :: Holds(s, t, p))
  }

  predicate InsertingItem(pc: Pc, x: Item) {
    (pc.Inserting? || pc.Popped? || pc.Expanding? || pc.Built? || pc.Pushing?) && pc.x == x
  }

  /** An item is only ever in the slot it was first put into. */
  predicate Homes(s: State) {
    && (forall p | p in s.slots && s.slots[p].Some? ::
          s.slots[p].value in s.home && s.home[s.slots[p].value] == p)
    && (forall x | x in s.home :: x in s.used && s.home[x] in s.slots)
    && (forall x | x in s.issued :: x in s.home)
  }

  predicate ThreadOk(s: State, t: ThreadId) {
    t in s.pcs ==> match s.pcs[t]
      case Inserting(x) => x in s.used && x !in s.home
      case Popped(x, p) => x in s.used && x !in s.home
      case Expanding(x) => x in s.used && x !in s.home
      case Built(x, _, c) => x in s.used && x !in s.home && c !in s.order
      case Pushing(x, c, i) => x in s.used && x !in s.home && c in s.order && i < CHUNK_SIZE
      case Stored(x, p) => x in s.home && s.home[x] == p && x !in s.issued
      case Removing(x, p) => x in s.home && s.home[x] == p
      case Retaining(p) => p in s.slots
      case Condemning(x, p) => x in s.home && s.home[x] == p
      case _ => true
  }

  ghost predicate Threads(s: State) {
    && (forall t | t in s.pcs :: ThreadOk(s, t))
    && (forall t, u, x | t in s.pcs && u in s.pcs && InsertingItem(s.pcs[t], x) && InsertingItem(s.pcs[u], x) :: t == u)
    && (forall t, u |
          && t in s.pcs && u in s.pcs
          && s.pcs[t].Stored? && s.pcs[u].Stored? && s.pcs[t].x == s.pcs[u].x ::
          t == u)
    && (forall t, u |
          && t in s.pcs && u in s.pcs
          && s.pcs[t].Built? && s.pcs[u].Built? && s.pcs[t].c == s.pcs[u].c ::
          t == u)
  }

  /** What an iteration has still to look at, and that it reports nothing twice. */
  predicate Iteration(s: State, pc: Pc) {
    pc.Iterating? ==>
      && (forall p | p in pc.todo :: p in s.slots)
      && (forall x | x in pc.atStart :: x in s.home && (s.home[x] in pc.todo || x in pc.seen || x !in Holding(s)))
      && (forall x | x in pc.seen :: pc.seen[x] == 1 && x in s.home && s.home[x] !in pc.todo)
  }

  predicate Iterations(s: State) {
    forall t | t in s.pcs :: Iteration(s, s.pcs[t])
  }

  function Full(slots: map<Slot, Option<Item>>): set<Slot> {
    set p | p in slots && slots[p].Some?
  }

  function Occupied(s: State): set<Slot> {
    Full(s.slots)
  }

  /** Inserts that have filled their slot and not counted it yet. */
  function Uncounted(s: State): set<ThreadId> {
    set t | t in s.pcs && s.pcs[t].Stored?
  }

  /** Removals that have emptied their slot and still count it. */
  function Overcounted(s: State): set<ThreadId> {
    set t | t in s.pcs && s.pcs[t].Cleared?
  }

  function InFlight(s: State): int {
    |Overcounted(s)| - |Uncounted(s)|
  }

  predicate Estimated(s: State) {
    s.estimate == (|Occupied(s)| + InFlight(s)) % WORD
  }

  ghost predicate Inv(s: State) {
    Linked(s) && Conserved(s) && Homes(s) && Threads(s) && Iterations(s) && Estimated(s)
  }

  lemma InitInv(s: State)
    requires Init(s)
    ensures Inv(s)
  {
    assert Occupied(s) == {} && Uncounted(s) == {} && Overcounted(s) == {};
    forall p ensures p in s.slots <==> p in s.free {
      if p in s.slots { assert s.free[p.idx] == p; }
    }
  }

  /** The facts about the thread that takes a step. */
  lemma StepFacts(s: State, e: Step)
    requires Inv(s) && Enabled(s, e)
    ensures e.t in s.pcs ==> ThreadOk(s, e.t)
    ensures e.Store? ==> Holds(s, e.t, s.pcs[e.t].p) && s.pcs[e.t].p in s.slots && s.slots[s.pcs[e.t].p] == None
    ensures e.GiveBack? ==> Holds(s, e.t, s.pcs[e.t].p) && s.pcs[e.t].p in s.slots
  {
    if e.Store? || e.GiveBack? { assert Holds(s, e.t, s.pcs[e.t].p); }
  }

  lemma SameShape(s: State, e: Step)
    requires Enabled(s, e) && !Publishes(s, e)
    requires e.Store? ==> s.pcs[e.t].p in s.slots
    ensures var s' := Apply(s, e);
            s'.order == s.order && s'.head == s.head && s'.next == s.next && s'.slots.Keys == s.slots.Keys
  {
  }

  lemma LinkedKept(s: State, e: Step)
    requires Inv(s) && Enabled(s, e)
    ensures Linked(Apply(s, e))
  {
    hide Conserved, Homes, Iterations, Estimated, Threads, Holds, Apply;
    StepFacts(s, e);
    if Publishes(s, e) {
      PublishLinks(s, e.t);
    } else {
      SameShape(s, e);
      assert Linked(s);
    }
  }

  lemma PublishLinks(s: State, t: ThreadId)
    requires Linked(s) && Enabled(s, SwapHead(t)) && Publishes(s, SwapHead(t)) && ThreadOk(s, t)
    ensures Linked(Apply(s, SwapHead(t)))
  {
  }

  // ---- each slot in exactly one place

  /** From `s` to `s'` exactly the claim of `t` on `p` is new (`gain`) or gone. */
  ghost predicate HoldChange(s: State, s': State, t: ThreadId, p: Slot, gain: bool) {
    && Holds(s, t, p) == !gain && Holds(s', t, p) == gain
    && forall u, q | u != t || q != p :: Holds(s', u, q) <==> Holds(s, u, q)
  }

  ghost predicate SameHolds(s: State, s': State) {
    forall u, q :: Holds(s', u, q) <==> Holds(s, u, q)
  }

  lemma Unmoved(s: State, s': State)
    requires Conserved(s) && SameHolds(s, s') && s'.slots == s.slots && s'.free == s.free
    ensures Conserved(s')
  {
  }

  lemma TakenFromQueue(s: State, s': State, t: ThreadId)
    requires Conserved(s) && s.free != [] && HoldChange(s, s', t, s.free[0], true)
    requires s'.slots == s.slots && s'.free == s.free[1..]
    ensures Conserved(s')
  {
    assert s.free == [s.free[0]] + s'.free;
    OthersCovered(s, s', s.free[0]);
  }

  lemma PutOnQueue(s: State, s': State, t: ThreadId, p: Slot)
    requires Conserved(s) && HoldChange(s, s', t, p, false)
    requires s'.slots == s.slots && s'.free == s.free + [p]
    ensures Conserved(s')
  {
  }

  lemma Filled(s: State, s': State, t: ThreadId, p: Slot, x: Item)
    requires Conserved(s) && HoldChange(s, s', t, p, false)
    requires s'.slots == s.slots[p := Some(x)] && s'.free == s.free
    ensures Conserved(s')
  {
    OthersCovered(s, s', p);
  }

  lemma Emptied(s: State, s': State, t: ThreadId, p: Slot)
    requires Conserved(s) && p in s.slots && s.slots[p].Some? && HoldChange(s, s', t, p, true)
    requires s'.slots == s.slots[p := None] && s'.free == s.free
    ensures Conserved(s')
  {
  }

  lemma OthersCovered(s: State, s': State, p: Slot)
    requires Conserved(s)
    requires forall u, q | q != p && Holds(s, u, q) :: Holds(s', u, q)
    ensures forall q | q in s.slots && q != p :: s.slots[q].Some? || q in s.free || exists u :: Holds(s', u, q)
  {
  }

  lemma NewChunk(s: State, s': State, t: ThreadId, c: ChunkId)
    requires Conserved(s) && Linked(s) && c !in s.order
    requires s'.slots == s.slots + Empty(c) && s'.free == s.free
    requires forall u, q :: Holds(s', u, q) <==> Holds(s, u, q) || (u == t && q in SlotsOf(c))
    ensures Conserved(s')
  {
    forall q | q in s.slots && s.slots[q] == None && q !in s.free ensures exists u :: Holds(s', u, q) {
      var u :| Holds(s, u, q);
      assert Holds(s', u, q);
    }
    forall q | q in SlotsOf(c) ensures exists u :: Holds(s', u, q) {
      assert Holds(s', t, q);
    }
  }

  predicate Neutral(s: State, e: Step)
    requires Enabled(s, e)
  {
    match e
    case Pop(_) => s.free == []
    case Store(_) | Push(_) | GiveBack(_) => false
    case SwapHead(_) => !Publishes(s, e)
    case RemoveSwap(_) | RetainSwap(_) => !Clears(s, e)
    case _ => true
  }

  lemma NeutralEffect(s: State, e: Step)
    requires Enabled(s, e) && Neutral(s, e)
    ensures var s' := Apply(s, e); s'.slots == s.slots && s'.free == s.free && s'.home == s.home
    ensures SameHolds(s, Apply(s, e))
  {
    OwnPc(s, e);
    NeutralHolds(s, e);
    hide Apply, After;
    forall u, q ensures Holds(Apply(s, e), u, q) <==> Holds(s, u, q) {
      if u != e.t { OthersStay(s, e, u); }
    }
    hide Holds;
    Contents(s, e);
  }

  lemma NeutralHolds(s: State, e: Step)
    requires Enabled(s, e) && Neutral(s, e)
    ensures forall q :: Holds(Apply(s, e), e.t, q) <==> Holds(s, e.t, q)
  {
  }

  lemma PopMoves(s: State, t: ThreadId)
    requires Enabled(s, Pop(t)) && s.free != [] && Conserved(s)
    ensures HoldChange(s, Apply(s, Pop(t)), t, s.free[0], true)
  {
  }

  lemma StoreMoves(s: State, t: ThreadId)
    requires Enabled(s, Store(t))
    ensures HoldChange(s, Apply(s, Store(t)), t, s.pcs[t].p, false)
  {
  }

  lemma SwapMoves(s: State, t: ThreadId, e: Step)
    requires (e == RemoveSwap(t) || e == RetainSwap(t)) && Enabled(s, e) && !Neutral(s, e)
    ensures HoldChange(s, Apply(s, e), t, s.pcs[t].p, true)
    ensures var s' := Apply(s, e); s'.slots == s.slots[s.pcs[t].p := None] && s'.free == s.free
  {
  }

  lemma PushMoves(s: State, t: ThreadId)
    requires Enabled(s, Push(t)) && s.pcs[t].i < CHUNK_SIZE
    ensures HoldChange(s, Apply(s, Push(t)), t, Slot(s.pcs[t].c, s.pcs[t].i), false)
  {
  }

  lemma GiveBackMoves(s: State, t: ThreadId)
    requires Enabled(s, GiveBack(t))
    ensures HoldChange(s, Apply(s, GiveBack(t)), t, s.pcs[t].p, false)
    ensures var s' := Apply(s, GiveBack(t)); s'.slots == s.slots && s'.free == s.free + [s.pcs[t].p]
  {
  }

  lemma ConservedKept(s: State, e: Step)
    requires Inv(s) && Enabled(s, e)
    ensures Conserved(Apply(s, e))
  {
    hide Homes, Iterations, Estimated, Conserved, Holds, HoldChange, SameHolds, InsertingItem;
    StepFacts(s, e);
    var t, s' := e.t, Apply(s, e);
    if Neutral(s, e) {
      NeutralEffect(s, e);
      Unmoved(s, s');
    } else if e.Pop? {
      PopMoves(s, t);
      TakenFromQueue(s, s', t);
    } else if e.Store? {
      StoreMoves(s, t);
      Filled(s, s', t, s.pcs[t].p, s.pcs[t].x);
    } else if e.SwapHead? {
      PublishHolds(s, t);
      NewChunk(s, s', t, s.pcs[t].c);
    } else if e.Push? {
      PushMoves(s, t);
      PutOnQueue(s, s', t, Slot(s.pcs[t].c, s.pcs[t].i));
    } else if e.GiveBack? {
      GiveBackMoves(s, t);
      PutOnQueue(s, s', t, s.pcs[t].p);
    } else {
      SwapMoves(s, t, e);
      Emptied(s, s', t, s.pcs[t].p);
    }
  }

  lemma PublishHolds(s: State, t: ThreadId)
    requires Enabled(s, SwapHead(t)) && Publishes(s, SwapHead(t))
    ensures var s', c := Apply(s, SwapHead(t)), s.pcs[t].c;
            forall u, q :: Holds(s', u, q) <==> Holds(s, u, q) || (u == t && q in SlotsOf(c))
  {
  }

  // ---- items and threads

  /** How a step changes the tables and the chunks. */
  lemma Tables(s: State, e: Step)
    requires Enabled(s, e)
    ensures var s' := Apply(s, e);
            && s'.used == (if e.InsertStart? then s.used + {e.x} else s.used)
            && s'.home == (if e.Store? then s.home[s.pcs[e.t].x := s.pcs[e.t].p] else s.home)
            && s'.issued == (if e.CountUp? then s.issued + {s.pcs[e.t].x} else s.issued)
            && s'.order == (if Publishes(s, e) then s.order + [s.pcs[e.t].c] else s.order)
  {
  }

  lemma OthersStay(s: State, e: Step, u: ThreadId)
    requires Enabled(s, e) && u != e.t
    ensures var s' := Apply(s, e); (u in s'.pcs <==> u in s.pcs) && (u in s.pcs ==> s'.pcs[u] == s.pcs[u])
  {
  }

  lemma Contents(s: State, e: Step)
    requires Enabled(s, e)
    ensures Apply(s, e).slots ==
              if e.Store? then s.slots[s.pcs[e.t].p := Some(s.pcs[e.t].x)]
              else if Clears(s, e) then s.slots[s.pcs[e.t].p := None]
              else if Publishes(s, e) then s.slots + Empty(s.pcs[e.t].c)
              else s.slots
  {
  }

  lemma HomesKept(s: State, e: Step)
    requires Inv(s) && Enabled(s, e)
    ensures Homes(Apply(s, e))
  {
    hide Apply, Conserved, Iterations, Estimated, Linked, Holds, Threads, InsertingItem;
    StepFacts(s, e);
    Tables(s, e);
    Contents(s, e);
  }

  lemma OtherThreads(s: State, e: Step, u: ThreadId)
    requires Inv(s) && Enabled(s, e) && u in s.pcs && u != e.t
    ensures var s' := Apply(s, e); u in s'.pcs && s'.pcs[u] == s.pcs[u] && ThreadOk(s', u)
  {
    hide Apply, Conserved, Iterations, Estimated, Linked, Holds, Homes;
    StepFacts(s, e);
    Tables(s, e);
    Contents(s, e);
    OthersStay(s, e, u);
    assert ThreadOk(s, u);
    if e.Store? {
      assert InsertingItem(s.pcs[e.t], s.pcs[e.t].x);
      assert !InsertingItem(s.pcs[u], s.pcs[e.t].x);
    }
  }

  /** The retain loop stays inside the chunk. */
  lemma RetainStays(s: State, e: Step)
    requires Enabled(s, e) && Linked(s) && After(s, e).Some? && After(s, e).value.Retaining?
    requires e.t in s.pcs ==> ThreadOk(s, e.t)
    requires e.GiveBack? ==> s.pcs[e.t].p in s.slots
    ensures After(s, e).value.p in s.slots
  {
  }

  predicate InsertStep(e: Step) {
    e.InsertStart? || e.Pop? || e.Store? || e.CountUp? || e.Build? || e.SwapHead? || e.Push?
  }

  lemma OwnThreadInsert(s: State, e: Step)
    requires Inv(s) && Enabled(s, e) && InsertStep(e)
    ensures ThreadOk(Apply(s, e), e.t)
  {
    hide Conserved, Iterations, Estimated, Linked, Inv, Threads, Effect, Apply, InsertingItem, SlotsOf, Holding;
    InvParts(s);
    StepFacts(s, e);
    Tables(s, e);
    Contents(s, e);
    OwnPc(s, e);
  }

  lemma OwnThreadOther(s: State, e: Step)
    requires Inv(s) && Enabled(s, e) && !InsertStep(e)
    ensures ThreadOk(Apply(s, e), e.t)
  {
    hide Conserved, Iterations, Estimated, Linked, Inv, Threads, Effect, Apply, InsertingItem, SlotsOf, Holding;
    InvParts(s);
    StepFacts(s, e);
    Tables(s, e);
    Contents(s, e);
    OwnPc(s, e);
    var pc := After(s, e);
    if pc.Some? && pc.value.Retaining? {
      RetainStays(s, e);
    }
  }

  /** The thread that takes the step, in its next state. */
  lemma OwnThread(s: State, e: Step)
    requires Inv(s) && Enabled(s, e)
    ensures ThreadOk(Apply(s, e), e.t)
  {
    hide Inv, Apply, Enabled, ThreadOk;
    if InsertStep(e) {
      OwnThreadInsert(s, e);
    } else {
      OwnThreadOther(s, e);
    }
  }

  lemma OwnPc(s: State, e: Step)
    requires Enabled(s, e)
    ensures var s', pc := Apply(s, e), After(s, e);
            (e.t in s'.pcs <==> pc.Some?) && (pc.Some? ==> s'.pcs[e.t] == pc.value)
  {
  }

  lemma InvParts(s: State)
    requires Inv(s)
    ensures Linked(s) && Conserved(s) && Homes(s) && Threads(s) && Iterations(s) && Estimated(s)
  {
  }

  predicate Inserts(pc: Pc) {
    pc.Inserting? || pc.Popped? || pc.Expanding? || pc.Built? || pc.Pushing?
  }

  /** Where a thread's item and its private chunk come from. */
  lemma OwnItem(s: State, e: Step)
    requires Enabled(s, e) && e.t in Apply(s, e).pcs
    ensures var pc := Apply(s, e).pcs[e.t];
            && (Inserts(pc) ==> if e.InsertStart? then pc.x == e.x else e.t in s.pcs && InsertingItem(s.pcs[e.t], pc.x))
            && (pc.Stored? ==> e.Store? && pc.x == s.pcs[e.t].x)
            && (pc.Built? ==> e.Build? && pc.c == e.c)
  {
  }

  lemma ThreadsKept(s: State, e: Step)
    requires Inv(s) && Enabled(s, e)
    ensures Threads(Apply(s, e))
  {
    hide Apply, Inv, Conserved, Iterations, Estimated, Linked, Holds, Homes, Effect;
    var s' := Apply(s, e);
    InvParts(s);
    StepFacts(s, e);
    OwnThread(s, e);
    forall u | u in s.pcs && u != e.t ensures u in s'.pcs && s'.pcs[u] == s.pcs[u] && ThreadOk(s', u) {
      OtherThreads(s, e, u);
    }
    forall u | u in s'.pcs && u != e.t ensures u in s.pcs {
      OthersStay(s, e, u);
    }
    if e.t in s'.pcs { OwnItem(s, e); }
  }

  // ---- iteration

  /** Following `next` from the head leads to every published chunk, newest first. */
  lemma {:induction false} WalkFollowsOrder(s: State, chain: seq<ChunkId>, i: nat)
    requires Linked(s) && Walk(s, chain) && i < |chain|
    ensures i < |s.order| && chain[i] == s.order[|s.order|-1-i]
  {
    if i > 0 {
      WalkFollowsOrder(s, chain, i - 1);
      var k := |s.order| - i;
      assert s.next[chain[i-1]] == Some(chain[i-1+1]) && chain[i-1] == s.order[k];
      if k > 0 { assert s.next[s.order[k]] == Some(s.order[k-1]); }
    }
  }

  lemma LinkOf(s: State, k: nat)
    requires Linked(s) && k < |s.order|
    ensures s.next[s.order[k]] == if k == 0 then None else Some(s.order[k-1])
  {
  }

  lemma WalkFindsAll(s: State, chain: seq<ChunkId>)
    requires Linked(s) && Walk(s, chain)
    ensures |chain| == |s.order|
    ensures forall c :: c in chain <==> c in s.order
  {
    forall i | 0 <= i < |chain| ensures i < |s.order| && chain[i] == s.order[|s.order|-1-i] {
      WalkFollowsOrder(s, chain, i);
    }
    var n := |chain|;
    WalkFollowsOrder(s, chain, n - 1);
    LinkOf(s, |s.order| - n);
    forall c | c in s.order ensures c in chain {
      var i :| 0 <= i < |s.order| && s.order[i] == c;
      assert chain[n-1-i] == c;
    }
  }

  lemma NewlyHeld(s: State, e: Step)
    requires Inv(s) && Enabled(s, e)
    ensures forall x | x in Holding(Apply(s, e)) :: x in Holding(s) || (e.Store? && x == s.pcs[e.t].x && x !in s.home)
  {
    hide Apply, Inv, Threads, Conserved, Linked, Iterations, Estimated, Homes;
    InvParts(s);
    StepFacts(s, e);
    Contents(s, e);
    var s' := Apply(s, e);
    forall x | x in Holding(s') ensures x in Holding(s) || (e.Store? && x == s.pcs[e.t].x && x !in s.home) {
      var p :| p in s'.slots && s'.slots[p] == Some(x);
      assert !(e.Store? && p == s.pcs[e.t].p) ==> p in s.slots && s.slots[p] == Some(x);
    }
  }

  lemma OtherIterations(s: State, e: Step, pc: Pc)
    requires Inv(s) && Enabled(s, e) && Iteration(s, pc)
    ensures Iteration(Apply(s, e), pc)
  {
    hide Apply, Inv, Threads, Conserved, Linked, Iterations, Estimated, Homes, Holding;
    InvParts(s);
    StepFacts(s, e);
    Tables(s, e);
    Contents(s, e);
    NewlyHeld(s, e);
  }

  lemma IterBegins(s: State, t: ThreadId, chain: seq<ChunkId>)
    requires Linked(s) && Homes(s) && Enabled(s, IterStart(t, chain))
    ensures Iteration(s, After(s, IterStart(t, chain)).value)
  {
    WalkFindsAll(s, chain);
    forall x | x in Holding(s) ensures s.home[x].chunk in chain && s.home[x] in SlotsOf(s.home[x].chunk) {
      var p :| p in s.slots && s.slots[p] == Some(x);
      assert s.home[x] == p;
    }
  }

  lemma IterAdvances(s: State, t: ThreadId, p: Slot)
    requires Homes(s) && Enabled(s, IterLoad(t, p)) && Iteration(s, s.pcs[t])
    ensures Iteration(s, After(s, IterLoad(t, p)).value)
  {
  }

  lemma NotIterating(s: State, pc: Pc)
    requires !pc.Iterating?
    ensures Iteration(s, pc)
  {
  }

  lemma IterationsKept(s: State, e: Step)
    requires Inv(s) && Enabled(s, e)
    ensures Iterations(Apply(s, e))
  {
    hide Apply, Inv, Threads, Conserved, Linked, Estimated, Homes, Holding, Iteration;
    InvParts(s);
    var s' := Apply(s, e);
    OwnPc(s, e);
    forall u | u in s'.pcs ensures Iteration(s', s'.pcs[u]) {
      if u != e.t {
        OthersStay(s, e, u);
        OtherIterations(s, e, s.pcs[u]);
      } else if s'.pcs[u].Iterating? {
        match e {
          case IterStart(t, chain) => IterBegins(s, t, chain);
          case IterLoad(t, p) => IterAdvances(s, t, p);
          case _ => assert false;
        }
        OtherIterations(s, e, s'.pcs[u]);
      } else {
        NotIterating(s', s'.pcs[u]);
      }
    }
  }

  // ---- the length counter

  lemma CountsStep(s: State, e: Step)
    requires Inv(s) && Enabled(s, e)
    ensures var s' := Apply(s, e);
            && |Occupied(s')| == |Occupied(s)| + (if e.Store? then 1 else if Clears(s, e) then -1 else 0)
            && |Uncounted(s')| == |Uncounted(s)| + (if e.Store? then 1 else if e.CountUp? then -1 else 0)
            && |Overcounted(s')| == |Overcounted(s)| + (if Clears(s, e) then 1 else if e.CountDown? then -1 else 0)
  {
    OccupiedStep(s, e);
    ThreadCounts(s, e);
  }

  lemma OccupiedStep(s: State, e: Step)
    requires Inv(s) && Enabled(s, e)
    ensures |Occupied(Apply(s, e))| == |Occupied(s)| + (if e.Store? then 1 else if Clears(s, e) then -1 else 0)
  {
    hide Apply, After, Effect, Inv, Holds, ThreadOk, Full, SlotsOf;
    StepFacts(s, e);
    Contents(s, e);
    if e.Store? {
      FullPut(s.slots, s.pcs[e.t].p, Some(s.pcs[e.t].x));
    } else if Clears(s, e) {
      FullPut(s.slots, s.pcs[e.t].p, None);
    } else if Publishes(s, e) {
      PrivateChunk(s, e.t);
      FullExtended(s.slots, s.pcs[e.t].c);
    }
  }

  lemma FullPut(m: map<Slot, Option<Item>>, p: Slot, v: Option<Item>)
    requires p in m && m[p].Some? != v.Some?
    ensures |Full(m[p := v])| == |Full(m)| + if v.Some? then 1 else -1
  {
    assert Full(m[p := v]) == if v.Some? then Full(m) + {p} else Full(m) - {p};
  }

  lemma FullExtended(m: map<Slot, Option<Item>>, c: ChunkId)
    requires forall p | p in SlotsOf(c) :: p !in m
    ensures Full(m + Empty(c)) == Full(m)
  {
  }

  lemma PrivateChunk(s: State, t: ThreadId)
    requires Inv(s) && t in s.pcs && s.pcs[t].Built?
    ensures forall p | p in SlotsOf(s.pcs[t].c) :: p !in s.slots
  {
    assert ThreadOk(s, t);
    FreshSlots(s, s.pcs[t].c);
  }

  lemma FreshSlots(s: State, c: ChunkId)
    requires Linked(s) && c !in s.order
    ensures forall p | p in SlotsOf(c) :: p !in s.slots
  {
  }

  lemma Counters(s: State, e: Step)
    requires Enabled(s, e)
    ensures var pc := After(s, e);
            && ((pc.Some? && pc.value.Stored?) <==> e.Store?)
            && ((pc.Some? && pc.value.Cleared?) <==> Clears(s, e))
            && ((e.t in s.pcs && s.pcs[e.t].Stored?) <==> e.CountUp?)
            && ((e.t in s.pcs && s.pcs[e.t].Cleared?) <==> e.CountDown?)
  {
  }

  lemma ThreadCounts(s: State, e: Step)
    requires Enabled(s, e)
    ensures var s' := Apply(s, e);
            && |Uncounted(s')| == |Uncounted(s)| + (if e.Store? then 1 else if e.CountUp? then -1 else 0)
            && |Overcounted(s')| == |Overcounted(s)| + (if Clears(s, e) then 1 else if e.CountDown? then -1 else 0)
  {
    hide Apply, Effect, After, Enabled;
    var s', t := Apply(s, e), e.t;
    OwnPc(s, e);
    Counters(s, e);
    forall u | u != t
      ensures u in Uncounted(s') <==> u in Uncounted(s)
      ensures u in Overcounted(s') <==> u in Overcounted(s)
    {
      OthersStay(s, e, u);
    }
    CountChange(Uncounted(s), Uncounted(s'), t);
    CountChange(Overcounted(s), Overcounted(s'), t);
  }

  lemma AddModWord(n: int, k: int)
    ensures (n % WORD + k) % WORD == (n + k) % WORD
  {
  }

  lemma EstimatedKept(s: State, e: Step)
    requires Inv(s) && Enabled(s, e)
    ensures Estimated(Apply(s, e))
  {
    hide Apply, Inv, Threads, Conserved, Linked, Iterations, Homes, Uncounted, Overcounted, Occupied;
    InvParts(s);
    CountsStep(s, e);
    EstimateStep(s, e);
    var n := |Occupied(s)| + InFlight(s);
    AddModWord(n, 1);
    AddModWord(n, -1);
  }

  lemma EstimateStep(s: State, e: Step)
    requires Enabled(s, e)
    ensures Apply(s, e).estimate ==
              if e.CountUp? then (s.estimate + 1) % WORD
              else if e.CountDown? then (s.estimate - 1) % WORD
              else s.estimate
  {
  }

  lemma StepKeeps(s: State, e: Step)
    requires Inv(s) && Enabled(s, e)
    ensures Inv(Apply(s, e))
  {
    hide Apply, Conserved, Linked, Homes, Threads, Iterations, Estimated;
    LinkedKept(s, e);
    ConservedKept(s, e);
    HomesKept(s, e);
    ThreadsKept(s, e);
    IterationsKept(s, e);
    EstimatedKept(s, e);
  }

  // ---- what every run keeps

  predicate Next(s: State, e: Step, s': State) {
    Enabled(s, e) && s' == Apply(s, e)
  }

  predicate Run(states: seq<State>, steps: seq<Step>) {
    && |states| == |steps| + 1
    && Init(states[0])
    && forall i | 0 <= i < |steps| :: Next(states[i], steps[i], states[i+1])
  }

  lemma {:induction false} RunInv(states: seq<State>, steps: seq<Step>, i: nat)
    requires Run(states, steps) && i < |states|
    ensures Inv(states[i])
  {
    hide Inv, Apply, Enabled;
    if i == 0 {
      InitInv(states[0]);
    } else {
      RunInv(states, steps, i - 1);
      assert Next(states[i-1], steps[i-1], states[i-1+1]);
      StepKeeps(states[i-1], steps[i-1]);
    }
  }

  function One(b: bool): nat {
    if b then 1 else 0
  }

  function Holders(s: State, p: Slot): set<ThreadId> {
    set t | t in s.pcs && Holds(s, t, p)
  }

  /** Each slot is occupied, or queued once, or in the hands of one operation: it is
      never given to two inserts. */
  lemma SlotInOnePlace(s: State, p: Slot)
    requires Inv(s) && p in s.slots
    ensures One(s.slots[p].Some?) + multiset(s.free)[p] + |Holders(s, p)| == 1
  {
    QueuedOnce(s.free, p);
    var hs := Holders(s, p);
    if t: ThreadId :| Holds(s, t, p) {
      assert hs == {t};
    } else {
      assert hs == {};
    }
  }

  lemma {:induction false} QueuedOnce(q: seq<Slot>, p: Slot)
    requires Distinct(q)
    ensures multiset(q)[p] == One(p in q)
  {
    if q != [] {
      QueuedOnce(q[1..], p);
      assert q == [q[0]] + q[1..];
    }
  }

  function Held(s: State): set<Slot> {
    set p | p in s.slots && Holders(s, p) != {}
  }

  function Queued(s: State): set<Slot> {
    set p | p in s.free
  }

  lemma SlotsSplit(s: State)
    requires Conserved(s)
    ensures Occupied(s) + Queued(s) + Held(s) == s.slots.Keys
    ensures Occupied(s) !! Queued(s) && (Occupied(s) + Queued(s)) !! Held(s)
  {
    forall p | p in s.slots && s.slots[p] == None && p !in s.free ensures p in Held(s) {
      var t: ThreadId :| Holds(s, t, p);
      assert t in Holders(s, p);
    }
    forall p | p in Held(s) ensures p !in s.free && s.slots[p] == None {
      var t :| t in Holders(s, p);
      assert Holds(s, t, p);
    }
  }

  lemma SlotsOfChunks(s: State)
    requires Linked(s)
    ensures s.slots.Keys == set c, p | c in s.order && p in SlotsOf(c) :: p
  {
    forall p | p in s.slots ensures p.chunk in s.order && p in SlotsOf(p.chunk) {
      assert p == Slot(p.chunk, p.idx);
    }
  }

  /** No slot is lost: the three kinds add up to the size of all chunks. */
  lemma SlotsAddUp(s: State)
    requires Inv(s)
    ensures |Occupied(s)| + |s.free| + |Held(s)| == CHUNK_SIZE * |s.order|
  {
    DistinctSize(s.free);
    SlotsSplit(s);
    SlotsOfChunks(s);
    ChunksSize(s.order);
    hide Occupied, Held, Holders, Holds, Inv, SlotsOf;
  }

  lemma {:induction false} DistinctSize(q: seq<Slot>)
    requires Distinct(q)
    ensures |set p | p in q| == |q|
  {
    if q != [] {
      DistinctSize(q[1..]);
      assert (set p | p in q) == (set p | p in q[1..]) + {q[0]};
    }
  }

  lemma {:induction false} RowSize(c: ChunkId, n: nat)
    ensures |set i | 0 <= i < n :: Slot(c, i)| == n
  {
    if n > 0 {
      RowSize(c, n - 1);
      assert (set i | 0 <= i < n :: Slot(c, i)) == (set i | 0 <= i < n - 1 :: Slot(c, i)) + {Slot(c, n - 1)};
    }
  }

  lemma {:induction false} ChunksSize(order: seq<ChunkId>)
    requires Distinct(order)
    ensures |set c, p | c in order && p in SlotsOf(c) :: p| == CHUNK_SIZE * |order|
  {
    var all := set c, p | c in order && p in SlotsOf(c) :: p;
    if order != [] {
      var rest := set c, p | c in order[1..] && p in SlotsOf(c) :: p;
      ChunksSize(order[1..]);
      RowSize(order[0], CHUNK_SIZE);
      assert all == rest + SlotsOf(order[0]);
    }
  }

  // ---- the list as a set

  /** The store of an insert adds its item; a successful compare-and-swap takes out the
      one item it is after; nothing else changes the set, not even growth. */
  lemma StepRefinesSet(s: State, e: Step)
    requires Inv(s) && Enabled(s, e)
    ensures e.Store? ==> s.pcs[e.t].x !in Holding(s)
    ensures Holding(Apply(s, e)) ==
              if e.Store? then Holding(s) + {s.pcs[e.t].x}
              else if e.RemoveSwap? then Holding(s) - {s.pcs[e.t].x}
              else if Clears(s, e) then Holding(s) - {s.pcs[e.t].x}
              else Holding(s)
  {
    hide Apply, After, Effect, Inv, Threads, Conserved, Linked, Iterations, Estimated;
    InvParts(s);
    StepFacts(s, e);
    Contents(s, e);
    var s' := Apply(s, e);
    if e.Store? {
      var x, p := s.pcs[e.t].x, s.pcs[e.t].p;
      assert s'.slots[p] == Some(x);
      forall y | y in Holding(s) ensures y in Holding(s') {
        var q :| q in s.slots && s.slots[q] == Some(y);
        assert s'.slots[q] == Some(y);
      }
      NewlyHeld(s, e);
    } else if e.RemoveSwap? || Clears(s, e) {
      ClearedSet(s, s', s.pcs[e.t].p, s.pcs[e.t].x);
    } else if Publishes(s, e) {
      FreshSlots(s, s.pcs[e.t].c);
      SameHolding(s, s');
    }
  }

  lemma ClearedSet(s: State, s': State, p: Slot, x: Item)
    requires Homes(s) && p in s.slots && x in s.home && s.home[x] == p
    requires s'.slots == if s.slots[p] == Some(x) then s.slots[p := None] else s.slots
    ensures Holding(s') == Holding(s) - {x}
  {
    forall y | y in Holding(s) && y != x ensures y in Holding(s') {
      var q :| q in s.slots && s.slots[q] == Some(y);
      assert s'.slots[q] == Some(y);
    }
  }

  lemma SameHolding(s: State, s': State)
    requires forall p | p in s'.slots && s'.slots[p].Some? :: p in s.slots && s'.slots[p] == s.slots[p]
    requires forall p | p in s.slots :: p in s'.slots && s'.slots[p] == s.slots[p]
    ensures Holding(s') == Holding(s)
  {
  }

  /** A removed item never comes back, whatever its slot is used for later; removing it
      again does nothing. */
  lemma {:induction false} RemovedForGood(states: seq<State>, steps: seq<Step>, i: nat, j: nat, x: Item)
    requires Run(states, steps) && i <= j < |states|
    requires x in states[i].home && x !in Holding(states[i])
    ensures x in states[j].home && x !in Holding(states[j])
  {
    hide Inv, Apply, Enabled, Holding;
    if i < j {
      RemovedForGood(states, steps, i, j - 1, x);
      RunInv(states, steps, j - 1);
      assert Next(states[j-1], steps[j-1], states[j-1+1]);
      Tables(states[j-1], steps[j-1]);
      NewlyHeld(states[j-1], steps[j-1]);
    }
  }

  lemma IterationEnds(s: State, t: ThreadId, x: Item)
    requires Inv(s) && Enabled(s, IterEnd(t))
    ensures x in s.pcs[t].atStart && x in Holding(s) ==> s.pcs[t].seen[x] == 1
    ensures s.pcs[t].seen[x] <= 1
  {
    assert Iteration(s, s.pcs[t]);
  }

  /** In `states[i..k+1]` the item was in the list at some time. */
  ghost predicate WasHeld(states: seq<State>, i: nat, k: nat, x: Item)
    requires k < |states|
  {
    exists j :: i <= j <= k && x in Holding(states[j])
  }

  /** From step `i` on, and not ended before step `k`, thread `t` iterates. */
  predicate Iterates(steps: seq<Step>, i: nat, k: nat, t: ThreadId) {
    i < k <= |steps| && steps[i].IterStart? && steps[i].t == t && forall j | i < j < k :: steps[j] != IterEnd(t)
  }

  lemma {:induction false} IterationSoFar(states: seq<State>, steps: seq<Step>, i: nat, k: nat, t: ThreadId)
    requires Run(states, steps) && Iterates(steps, i, k, t)
    ensures t in states[k].pcs && states[k].pcs[t].Iterating? && states[k].pcs[t].atStart == Holding(states[i])
    ensures forall x | x in states[k].pcs[t].seen :: WasHeld(states, i, k, x)
  {
    hide Apply, Holding, Inv;
    var s, e := states[k-1], steps[k-1];
    assert Next(s, e, states[k-1+1]);
    OwnPc(s, e);
    if k > i + 1 {
      IterationSoFar(states, steps, i, k - 1, t);
      if e.t != t { OthersStay(s, e, t); }
      if e.IterLoad? { LoadedIsHeld(s, e.p); }
      forall x | WasHeld(states, i, k - 1, x) ensures WasHeld(states, i, k, x) {
        var j :| i <= j <= k - 1 && x in Holding(states[j]);
        assert i <= j <= k && x in Holding(states[j]);
      }
    }
  }

  lemma LoadedIsHeld(s: State, p: Slot)
    requires p in s.slots
    ensures s.slots[p].Some? ==> s.slots[p].value in Holding(s)
  {
  }

  /** A whole iteration, with anything going on beside it: every item that is in the list
      from its beginning to its end is reported exactly once, no item twice, and only
      items that were in the list meanwhile. */
  lemma IterationComplete(states: seq<State>, steps: seq<Step>, i: nat, k: nat, t: ThreadId, x: Item)
    requires Run(states, steps) && Iterates(steps, i, k, t) && k < |steps| && steps[k] == IterEnd(t)
    ensures t in states[k].pcs && states[k].pcs[t].Iterating?
    ensures (forall j | i <= j <= k :: x in Holding(states[j])) ==> states[k].pcs[t].seen[x] == 1
    ensures states[k].pcs[t].seen[x] <= 1
    ensures x in states[k].pcs[t].seen ==> WasHeld(states, i, k, x)
  {
    hide Apply, Holding, Inv;
    IterationSoFar(states, steps, i, k, t);
    RunInv(states, steps, k);
    assert Next(states[k], steps[k], states[k+1]);
    IterationEnds(states[k], t, x);
  }

  // ---- what the counter says

  lemma HoldingSize(s: State)
    requires Homes(s)
    ensures |Holding(s)| == |Occupied(s)|
  {
    HomesOf(s, Occupied(s));
    assert Holding(s) == set p | p in Occupied(s) :: s.slots[p].value;
  }

  lemma {:induction false} HomesOf(s: State, ps: set<Slot>)
    requires Homes(s) && ps <= Occupied(s)
    ensures |set p | p in ps :: s.slots[p].value| == |ps|
    decreases |ps|
  {
    if ps != {} {
      var p :| p in ps;
      var rest := ps - {p};
      HomesOf(s, rest);
      var xs := set q | q in rest :: s.slots[q].value;
      assert s.slots[p].value !in xs;
      assert (set q | q in ps :: s.slots[q].value) == xs + {s.slots[p].value};
    }
  }

  /** The estimate is the number of items, corrected by the operations in flight, exactly
      as long as that number does not leave the range of the counter. */
  lemma EstimateExact(s: State)
    requires Inv(s)
    ensures s.estimate == |Holding(s)| + InFlight(s) <==> 0 <= |Holding(s)| + InFlight(s) < WORD
    ensures Uncounted(s) == {} && Overcounted(s) == {} && |Holding(s)| < WORD ==> s.estimate == |Holding(s)|
  {
    HoldingSize(s);
  }

  /** It does not go below zero while every item that is not yet counted is in place:
      then the estimate counts the other items and the removals not yet counted. */
  lemma NoUnderflow(s: State)
    requires Inv(s) && forall t | t in Uncounted(s) :: s.pcs[t].x in Holding(s)
    ensures 0 <= |Holding(s)| + InFlight(s)
  {
    UncountedItems(s, Uncounted(s));
    var xs := set t | t in Uncounted(s) :: s.pcs[t].x;
    assert xs <= Holding(s);
    SubsetSize(xs, Holding(s));
  }

  lemma {:induction false} UncountedItems(s: State, ts: set<ThreadId>)
    requires Threads(s) && ts <= Uncounted(s)
    ensures |set t | t in ts :: s.pcs[t].x| == |ts|
    decreases |ts|
  {
    if ts != {} {
      var t :| t in ts;
      var rest := ts - {t};
      UncountedItems(s, rest);
      assert (set u | u in ts :: s.pcs[u].x) == (set u | u in rest :: s.pcs[u].x) + {s.pcs[t].x};
    }
  }

  lemma WrapBegins(p: Slot) returns (s0: State, s1: State, s2: State, s3: State)
    requires p == Slot(0, 0)
    ensures Init(s0) && Next(s0, InsertStart(0, 7), s1) && Next(s1, Pop(0), s2) && Next(s2, Store(0), s3)
    ensures s3.pcs == map[0 := Stored(7, p)] && s3.estimate == 0 && 0 in s3.order
    ensures s3.slots == Empty(0)[p := Some(7)]
  {
    s0 := Initial();
    assert p in SlotsOf(0) && s0.free[0] == p;
    s1 := s0.(used := {7}, pcs := map[0 := Inserting(7)]);
    s2 := s1.(free := s0.free[1..], pcs := map[0 := Popped(7, p)]);
    s3 := s2.(slots := s0.slots[p := Some(7)], home := map[7 := p], pcs := map[0 := Stored(7, p)]);
  }

  lemma WrapLooks(s3: State, p: Slot) returns (s4: State, s5: State)
    requires p == Slot(0, 0) && s3.pcs == map[0 := Stored(7, p)] && 0 in s3.order
    requires s3.slots == Empty(0)[p := Some(7)]
    ensures Next(s3, RetainStart(1, 0), s4) && Next(s4, RetainLoad(1, false), s5)
    ensures s5 == s3.(pcs := map[0 := Stored(7, p), 1 := Condemning(7, p)])
  {
    s4 := s3.(pcs := map[0 := Stored(7, p), 1 := Retaining(p)]);
    s5 := s4.(pcs := map[0 := Stored(7, p), 1 := Condemning(7, p)]);
  }

  lemma WrapEnds(s5: State, p: Slot) returns (s6: State, s7: State)
    requires p == Slot(0, 0) && s5.pcs == map[0 := Stored(7, p), 1 := Condemning(7, p)] && s5.estimate == 0
    requires s5.slots == Empty(0)[p := Some(7)]
    ensures Next(s5, RetainSwap(1), s6) && Next(s6, CountDown(1), s7)
    ensures s7.estimate == WORD - 1 && Holding(s7) == {}
  {
    s6 := s5.(slots := s5.slots[p := None], pcs := map[0 := Stored(7, p), 1 := Cleared(p, true)]);
    s7 := s6.(estimate := WORD - 1, pcs := map[0 := Stored(7, p), 1 := Returning(p, true)]);
  }

  /** A retain that takes out an item before its insert has counted it makes the counter
      wrap around for a moment. */
  lemma EstimateCanWrap() returns (states: seq<State>, steps: seq<Step>)
    ensures Run(states, steps)
    ensures states[|steps|].estimate == WORD - 1 && Holding(states[|steps|]) == {}
  {
    hide Next, Holding;
    var s0, s1, s2, s3 := WrapBegins(Slot(0, 0));
    var s4, s5 := WrapLooks(s3, Slot(0, 0));
    var s6, s7 := WrapEnds(s5, Slot(0, 0));
    states := [s0, s1, s2, s3, s4, s5, s6, s7];
    steps := [
      InsertStart(0, 7), Pop(0), Store(0),
      RetainStart(1, 0), RetainLoad(1, false), RetainSwap(1), CountDown(1)];
  }
}
