// The chunked list on arrays that are updated in place, run by one thread at a time.
// ChunkedList.dfy has the interleavings.
module ChunkedArrays {
  import opened Basics

  /** A shared reference: two of them are equal when they are the same reference. */
  class Arc<T> {
    const value: T

    constructor (value: T)
      ensures this.value == value
    {
      this.value := value;
    }
  }

  class Chunk<T> {
    const values: array<Option<Arc<T>>>
    const next: Chunk?<T>

    constructor (next: Chunk?<T>)
      ensures this.next == next && fresh(values) && values.Length == CHUNK_SIZE
      ensures forall i | 0 <= i < CHUNK_SIZE :: values[i] == None
    {
      values := new Option<Arc<T>>[CHUNK_SIZE](_ => None);
      this.next := next;
    }
  }

  type Place<T> = (Chunk<T>, nat)

  /** What `insert` returns: the reference and where it was put. */
  datatype ListItem<T> = ListItem(v: Arc<T>, from: Chunk<T>, idx: nat)

  /** The slots of `c` below `n`, in order. */
  function Row<T>(c: Chunk<T>, n: nat): seq<Place<T>> {
    seq(n, (i: nat) => (c, i))
  }

  /** The slots of `chunks` that are not taken are queued, each once. */
  ghost predicate QueueOk<T>(free: seq<Place<T>>, chunks: seq<Chunk<T>>, taken: set<Place<T>>) {
    && (forall i, j | 0 <= i < j < |free| :: free[i] != free[j])
    && (forall p | p in free :: p.0 in chunks && p.1 < CHUNK_SIZE && p !in taken)
    && (forall c, i | c in chunks && 0 <= i < CHUNK_SIZE && (c, i) !in taken :: (c, i) in free)
  }

  lemma QueuePops<T>(free: seq<Place<T>>, chunks: seq<Chunk<T>>, taken: set<Place<T>>)
    requires QueueOk(free, chunks, taken) && free != []
    ensures QueueOk(free[1..], chunks, taken + {free[0]})
    ensures free[0].0 in chunks && free[0].1 < CHUNK_SIZE && free[0] !in taken
  {
  }

  lemma QueuePushes<T>(free: seq<Place<T>>, chunks: seq<Chunk<T>>, taken: set<Place<T>>, p: Place<T>)
    requires QueueOk(free, chunks, taken) && p in taken && p.0 in chunks && p.1 < CHUNK_SIZE
    ensures QueueOk(free + [p], chunks, taken - {p})
  {
  }

  lemma QueueGrows<T>(free: seq<Place<T>>, chunks: seq<Chunk<T>>, taken: set<Place<T>>, c: Chunk<T>)
    requires QueueOk(free, chunks, taken) && c !in chunks && forall p | p in taken :: p.0 in chunks
    ensures QueueOk(free + Row(c, CHUNK_SIZE), [c] + chunks, taken)
  {
    var row := Row(c, CHUNK_SIZE);
    forall i | 0 <= i < CHUNK_SIZE ensures (c, i) in row {
      assert row[i] == (c, i);
    }
  }

  ghost function ChunkAt<T>(chunks: seq<Chunk<T>>, i: nat): Chunk?<T> {
    if i < |chunks| then chunks[i] else null
  }

  /** Following `next` from `head` leads through `chunks`; no array is shared. */
  ghost predicate ChainOk<T>(chunks: seq<Chunk<T>>, head: Chunk<T>) {
    && chunks != [] && chunks[0] == head
    && (forall i | 0 <= i < |chunks| :: chunks[i].next == ChunkAt(chunks, i + 1))
    && (forall i, j | 0 <= i < j < |chunks| :: chunks[i] != chunks[j])
    && (forall c, d | c in chunks && d in chunks && c != d :: c.values != d.values)
    && (forall c | c in chunks :: c.values.Length == CHUNK_SIZE)
  }

  lemma ChainGrows<T>(chunks: seq<Chunk<T>>, head: Chunk<T>, c: Chunk<T>)
    requires ChainOk(chunks, head) && c !in chunks && c.next == head && c.values.Length == CHUNK_SIZE
    requires forall d | d in chunks :: d.values != c.values
    ensures ChainOk([c] + chunks, c)
  {
  }

  /** What `f` does not want to keep, in the slots below `n` of some chunks. */
  ghost function Unwanted<T>(m: map<Place<T>, Arc<T>>, cs: set<Chunk<T>>, n: nat, f: Arc<T> -> bool): set<Place<T>> {
    set p | p in m && p.0 in cs && p.1 < n && !f(m[p])
  }

  lemma UnwantedMore<T>(m: map<Place<T>, Arc<T>>, cs: set<Chunk<T>>, c: Chunk<T>, f: Arc<T> -> bool)
    ensures var rest := m - Unwanted(m, cs, CHUNK_SIZE, f);
            rest - Unwanted(rest, {c}, CHUNK_SIZE, f) == m - Unwanted(m, cs + {c}, CHUNK_SIZE, f)
  {
  }

  lemma UnwantedNone<T>(m: map<Place<T>, Arc<T>>, f: Arc<T> -> bool)
    ensures m - Unwanted(m, {}, CHUNK_SIZE, f) == m
  {
  }

  lemma UnwantedAll<T>(m: map<Place<T>, Arc<T>>, cs: set<Chunk<T>>, f: Arc<T> -> bool)
    requires forall p | p in m :: p.0 in cs && p.1 < CHUNK_SIZE
    ensures m - Unwanted(m, cs, CHUNK_SIZE, f) == map p | p in m && f(m[p]) :: m[p]
  {
  }

  ghost function ArraysOf<T>(chunks: seq<Chunk<T>>): set<array<Option<Arc<T>>>> {
    set c | c in chunks :: c.values
  }

  /** The arrays hold `contents` and nothing else. */
  ghost predicate StoredIn<T>(chunks: seq<Chunk<T>>, contents: map<Place<T>, Arc<T>>)
    reads ArraysOf(chunks)
  {
    && (forall p | p in contents :: p.0 in chunks && p.1 < CHUNK_SIZE)
    && (forall c | c in chunks :: c.values.Length == CHUNK_SIZE)
    && (forall c, i | c in chunks && 0 <= i < CHUNK_SIZE ::
          c.values[i] == if (c, i) in contents then Some(contents[(c, i)]) else None)
  }

  lemma StoredGrows<T>(chunks: seq<Chunk<T>>, contents: map<Place<T>, Arc<T>>, c: Chunk<T>)
    requires StoredIn(chunks, contents) && c !in chunks && c.values.Length == CHUNK_SIZE
    requires forall i | 0 <= i < CHUNK_SIZE :: c.values[i] == None
    ensures StoredIn([c] + chunks, contents)
  {
  }

  class ChunkedLinkedList<T> {
    var freeEntries: seq<Place<T>>
    var head: Chunk<T>
    var estimatedLen: nat
    /** The chunks from the head on, and what is in the list, by place. */
    ghost var chunks: seq<Chunk<T>>
    ghost var contents: map<Place<T>, Arc<T>>

    ghost function Arrays(): set<array<Option<Arc<T>>>>
      reads `chunks
    {
      ArraysOf(chunks)
    }

    ghost predicate Chain()
      reads `chunks, `head
    {
      ChainOk(chunks, head)
    }

    ghost predicate Stored()
      reads `chunks, `contents, Arrays()
    {
      StoredIn(chunks, contents)
    }

    ghost predicate Valid()
      reads this, Arrays()
    {
      Chain() && Stored() && QueueOk(freeEntries, chunks, contents.Keys) && estimatedLen == |contents|
    }

    constructor ()
      ensures Valid() && contents == map[] && fresh(Arrays())
    {
      var first := new Chunk<T>(null);
      head, freeEntries, estimatedLen := first, [], 0;
      chunks, contents := [first], map[];
      new;
      QueueAll(first);
      QueueGrows([], [], {}, first);
    }

    /** Queues every slot of a new chunk. */
    method QueueAll(c: Chunk<T>)
      modifies `freeEntries
      ensures freeEntries == old(freeEntries) + Row(c, CHUNK_SIZE)
    {
      for i := 0 to CHUNK_SIZE
        invariant freeEntries == old(freeEntries) + Row(c, i)
      {
        assert Row(c, i + 1) == Row(c, i) + [(c, i)];
        freeEntries := freeEntries + [(c, i)];
      }
    }

    /** Makes a new chunk, which points to the old head, the new head. */
    method Link() returns (c: Chunk<T>)
      requires Chain() && Stored()
      modifies `head, `chunks
      ensures Chain() && Stored() && head == c && chunks == [c] + old(chunks)
      ensures c !in old(chunks) && fresh(c.values)
    {
      hide ChainOk;
      ChainLengths();
      c := new Chunk<T>(head);
      ChainGrows(chunks, head, c);
      StoredGrows(chunks, contents, c);
      assert (this as object) !in ArraysOf([c] + chunks);
      head := c;
      chunks := [c] + chunks;
    }

    method Expand()
      requires Valid() && freeEntries == []
      modifies this
      ensures Valid() && contents == old(contents) && freeEntries != []
      ensures fresh(Arrays() - old(Arrays()))
    {
      hide ChainOk, QueueOk, StoredIn;
      Places();
      ghost var before := chunks;
      var c := Link();
      QueueGrows(freeEntries, before, contents.Keys, c);
      assert (this as object) !in ArraysOf(chunks);
      QueueAll(c);
    }

    lemma ChainLengths()
      requires Chain()
      ensures forall c | c in chunks :: c.values.Length == CHUNK_SIZE && c.values in Arrays()
    {
    }

    /** Fills a slot. */
    method Fill(p: Place<T>, v: Arc<T>)
      requires Chain() && Stored() && p.0 in chunks && p.1 < CHUNK_SIZE
      modifies `contents, p.0.values
      ensures Stored() && contents == old(contents)[p := v]
    {
      hide ChainOk;
      ArraysApart(p.0);
      p.0.values[p.1] := Some(v);
      contents := contents[p := v];
    }

    /** Empties a slot. */
    method Unfill(p: Place<T>)
      requires Chain() && Stored() && p in contents
      modifies `contents, p.0.values
      ensures Stored() && contents == old(contents) - {p}
    {
      hide ChainOk;
      ArraysApart(p.0);
      p.0.values[p.1] := None;
      contents := contents - {p};
    }

    lemma ArraysApart(c: Chunk<T>)
      requires Chain() && c in chunks
      ensures c.values.Length == CHUNK_SIZE && forall d | d in chunks && d != c :: d.values != c.values
    {
    }

    /** Empties a slot, counts it off and queues it. */
    method Clear(p: Place<T>)
      requires Valid() && p in contents
      modifies `freeEntries, `estimatedLen, `contents, p.0.values
      ensures Valid() && contents == old(contents) - {p}
    {
      hide QueueOk, ChainOk, StoredIn;
      Places();
      QueuePushes(freeEntries, chunks, contents.Keys, p);
      assert (this as object) !in ArraysOf(chunks);
      estimatedLen := estimatedLen - 1;
      freeEntries := freeEntries + [p];
      Unfill(p);
      assert contents.Keys == old(contents).Keys - {p} && |contents.Keys| == |old(contents).Keys| - 1;
    }

    lemma Places()
      requires Valid()
      ensures forall p | p in contents :: p.0 in chunks && p.1 < CHUNK_SIZE
    {
    }

    method Insert(v: Arc<T>) returns (item: ListItem<T>)
      requires Valid()
      modifies this, Arrays()
      ensures Valid() && fresh(Arrays() - old(Arrays()))
      ensures item.v == v && (item.from, item.idx) !in old(contents)
      ensures contents == old(contents)[(item.from, item.idx) := v]
    {
      hide ChainOk, QueueOk, StoredIn;
      while freeEntries == []
        invariant Valid() && contents == old(contents) && fresh(Arrays() - old(Arrays()))
        decreases freeEntries == []
      {
        Expand();
      }
      var p := freeEntries[0];
      QueuePops(freeEntries, chunks, contents.Keys);
      freeEntries := freeEntries[1..];
      Fill(p, v);
      assert contents.Keys == old(contents).Keys + {p};
      estimatedLen := estimatedLen + 1;
      item := ListItem(v, p.0, p.1);
    }

    /** Takes the item out unless its slot holds something else by now. */
    method Remove(item: ListItem<T>)
      requires Valid() && item.from in chunks && item.idx < CHUNK_SIZE
      modifies `freeEntries, `estimatedLen, `contents, item.from.values
      ensures Valid()
      ensures var p := (item.from, item.idx);
              contents ==
                if p in old(contents) && old(contents)[p] == item.v then old(contents) - {p} else old(contents)
    {
      ChainLengths();
      if item.from.values[item.idx] == Some(item.v) {
        Clear((item.from, item.idx));
      }
    }

    lemma HeadIsFirst()
      requires Valid()
      ensures ChunkAt(chunks, 0) == head
    {
    }

    lemma NextOf(n: nat)
      requires Valid() && n < |chunks|
      ensures chunks[n].next == ChunkAt(chunks, n + 1) && chunks[n] !in chunks[..n]
    {
    }

    lemma SlotIs(c: Chunk<T>, i: nat)
      requires Valid() && c in chunks && i < CHUNK_SIZE
      ensures c.values.Length == CHUNK_SIZE
      ensures c.values[i] == if (c, i) in contents then Some(contents[(c, i)]) else None
    {
    }

    /** One chunk's part of `par_retain`. */
    method RetainThis(c: Chunk<T>, f: Arc<T> -> bool)
      requires Valid() && c in chunks
      modifies `freeEntries, `estimatedLen, `contents, c.values
      ensures Valid()
      ensures contents == old(contents) - Unwanted(old(contents), {c}, CHUNK_SIZE, f)
    {
      hide Valid;
      ghost var all := contents;
      for i := 0 to CHUNK_SIZE
        invariant Valid() && contents == all - Unwanted(all, {c}, i, f)
      {
        SlotIs(c, i);
        assert Unwanted(all, {c}, i + 1, f) ==
               Unwanted(all, {c}, i, f) + if (c, i) in all && !f(all[(c, i)]) then {(c, i)} else {};
        if c.values[i].Some? && !f(c.values[i].value) {
          Clear((c, i));
        }
      }
    }

    /** Keeps the items that `f` wants to keep. */
    method ParRetain(f: Arc<T> -> bool)
      requires Valid()
      modifies `freeEntries, `estimatedLen, `contents, Arrays()
      ensures Valid()
      ensures contents == map p | p in old(contents) && f(old(contents)[p]) :: old(contents)[p]
    {
      hide Valid, Unwanted;
      ghost var all := contents;
      var c: Chunk?<T> := head;
      ghost var n := 0;
      HeadIsFirst();
      Places();
      UnwantedNone(all, f);
      assert Elements(chunks[..0]) == {};
      while c != null
        invariant Valid() && n <= |chunks| && c == ChunkAt(chunks, n)
        invariant contents == all - Unwanted(all, Elements(chunks[..n]), CHUNK_SIZE, f)
        decreases |chunks| - n
      {
        NextOf(n);
        RetainThis(c, f);
        UnwantedMore(all, Elements(chunks[..n]), c, f);
        assert chunks[..n+1] == chunks[..n] + [c];
        assert Elements(chunks[..n+1]) == Elements(chunks[..n]) + {c};
        c, n := c.next, n + 1;
      }
      assert chunks[..n] == chunks;
      UnwantedAll(all, Elements(chunks), f);
    }

    /** Every item, and the place where it was found. */
    method ParIter() returns (found: seq<Arc<T>>, at: seq<Place<T>>)
      requires Valid()
      ensures |at| == |found| && forall i, j | 0 <= i < j < |at| :: at[i] != at[j]
      ensures forall i | 0 <= i < |at| :: at[i] in contents && found[i] == contents[at[i]]
      ensures forall p | p in contents :: p in at
    {
      hide Valid;
      HeadIsFirst();
      Places();
      found, at := [], [];
      var c: Chunk?<T> := head;
      ghost var n := 0;
      while c != null
        invariant Valid() && n <= |chunks| && c == ChunkAt(chunks, n)
        invariant |at| == |found| && forall i, j | 0 <= i < j < |at| :: at[i] != at[j]
        invariant forall i | 0 <= i < |at| :: at[i] in contents && found[i] == contents[at[i]]
        invariant forall p | p in contents :: p in at <==> p.0 in chunks[..n]
        decreases |chunks| - n
      {
        assert chunks[..n+1] == chunks[..n] + [c];
        NextOf(n);
        found, at := IterThis(c, found, at);
        c, n := c.next, n + 1;
      }
      assert chunks[..n] == chunks;
    }

    method IterThis(c: Chunk<T>, before: seq<Arc<T>>, had: seq<Place<T>>)
          returns (found: seq<Arc<T>>, at: seq<Place<T>>)
      requires Valid() && c in chunks && |had| == |before|
      requires forall i, j | 0 <= i < j < |had| :: had[i] != had[j]
      requires forall i | 0 <= i < |had| :: had[i] in contents && before[i] == contents[had[i]] && had[i].0 != c
      ensures Valid() && |at| == |found| && forall i, j | 0 <= i < j < |at| :: at[i] != at[j]
      ensures forall i | 0 <= i < |at| :: at[i] in contents && found[i] == contents[at[i]]
      ensures forall p | p in contents :: p in at <==> p in had || p.0 == c
    {
      hide Valid;
      found, at := before, had;
      Places();
      for i := 0 to CHUNK_SIZE
        invariant Valid()
        invariant |at| == |found| && forall i, j | 0 <= i < j < |at| :: at[i] != at[j]
        invariant forall i | 0 <= i < |at| :: at[i] in contents && found[i] == contents[at[i]]
        invariant forall p | p in contents :: p in at <==> p in had || (p.0 == c && p.1 < i)
      {
        SlotIs(c, i);
        if c.values[i].Some? {
          found, at := found + [c.values[i].value], at + [(c, i)];
        }
      }
    }
  }
}
