// The collector as it runs on the heap while the program stands still: the passes of
// `do_collect` and the dropper's work, on objects that are updated in place.
module QuietCollector {
  import opened Basics
  import opened TraceGraph
  import T = Trigger

  datatype DeallocationAction = BoxDrop | DoNothing | RunDrop | RunFinalizer

  class GcData {
    var lastMarked: nat
    /** The lockout: how many shared warrants are out, or one exclusive. */
    var shared: nat
    var exclusive: bool
    var deallocated: bool
    /** The memory has been given back. */
    var freed: bool
    /** The handles that lie inside the allocation, and those its `Scan` reports. */
    var owned: seq<GcHandle>
    var reported: seq<GcHandle>
    const action: DeallocationAction
    /** What the finalizer invalidates, if there is one to run. */
    var finalized: seq<GcHandle>

    constructor (action: DeallocationAction, owned: seq<GcHandle>, reported: seq<GcHandle>, finalized: seq<GcHandle>)
      ensures this.owned == owned && this.reported == reported && this.finalized == finalized
      ensures this.action == action
      ensures lastMarked == 0 && shared == 0 && !exclusive && !deallocated && !freed
    {
      this.action := action;
      this.owned, this.reported, this.finalized := owned, reported, finalized;
      lastMarked, shared, exclusive, deallocated, freed := 0, 0, false, false, false;
    }

    /** The handles that deallocating this allocation takes off the handle list. */
    ghost function Released(): set<GcHandle>
      reads `owned, `reported, `finalized
    {
      match action
      case DoNothing => Elements(reported)
      case RunFinalizer => Elements(reported) + Elements(finalized)
      case _ => Elements(owned)
    }
  }

  class GcHandle {
    var target: GcData
    var lastNonRooted: nat

    constructor (target: GcData)
      ensures this.target == target && lastNonRooted == 0
    {
      this.target := target;
      lastNonRooted := 0;
    }
  }

  /** The members of `s` that are in `S`, in order. */
  ghost function Filter<T>(s: seq<T>, S: set<T>): seq<T> {
    if s == [] then []
    else if s[|s|-1] in S then Filter(s[..|s|-1], S) + [s[|s|-1]]
    else Filter(s[..|s|-1], S)
  }

  lemma FilterNone<T>(s: seq<T>, S: set<T>)
    ensures Filter(s[..0], S) == []
  {
  }

  lemma FilterNext<T>(s: seq<T>, i: nat, S: set<T>)
    requires i < |s|
    ensures Filter(s[..i+1], S) == if s[i] in S then Filter(s[..i], S) + [s[i]] else Filter(s[..i], S)
  {
    assert s[..i+1][..i] == s[..i];
  }

  lemma ElementsExtended<T>(s: seq<T>, x: T)
    ensures Elements(s + [x]) == Elements(s) + {x}
  {
  }

  lemma {:induction false} FilterElements<T>(s: seq<T>, S: set<T>)
    ensures forall x :: x in Filter(s, S) <==> x in s && x in S
    ensures Elements(Filter(s, S)) == Elements(s) * S
    ensures Distinct(s) ==> Distinct(Filter(s, S))
  {
    if s != [] {
      var n := |s| - 1;
      FilterElements(s[..n], S);
      assert s == s[..n] + [s[n]];
      ElementsExtended(s[..n], s[n]);
      ElementsExtended(Filter(s[..n], S), s[n]);
      assert forall x :: x in s <==> x in s[..n] || x == s[n];
    }
  }

  lemma {:induction false} FilterTwice<T>(s: seq<T>, S: set<T>, S': set<T>)
    ensures Filter(Filter(s, S), S') == Filter(s, S * S')
  {
    if s != [] {
      var n := |s| - 1;
      FilterTwice(s[..n], S, S');
      if s[n] in S {
        assert (Filter(s[..n], S) + [s[n]])[..|Filter(s[..n], S)|] == Filter(s[..n], S);
      }
    }
  }

  /** Without repetition, leaving out one element cuts it out where it is. */
  lemma {:induction false} FilterCuts<T>(s: seq<T>, i: nat)
    requires Distinct(s) && i < |s|
    ensures Filter(s, Elements(s) - {s[i]}) == s[..i] + s[i+1..]
  {
    var n := |s| - 1;
    var rest := s[..n];
    assert s == rest + [s[n]];
    ElementsExtended(rest, s[n]);
    if i == n {
      FilterAll(rest, Elements(s) - {s[n]});
    } else {
      FilterCuts(rest, i);
      FilterSame(rest, Elements(s) - {s[i]}, Elements(rest) - {s[i]});
      assert rest[..i] == s[..i] && rest[i+1..] + [s[n]] == s[i+1..];
    }
  }

  lemma {:induction false} FilterAll<T>(s: seq<T>, S: set<T>)
    requires forall x | x in s :: x in S
    ensures Filter(s, S) == s
  {
    if s != [] {
      FilterAll(s[..|s|-1], S);
      assert s[..|s|-1] + [s[|s|-1]] == s;
    }
  }

  lemma {:induction false} FilterSame<T>(s: seq<T>, S: set<T>, S': set<T>)
    requires forall x | x in s :: x in S <==> x in S'
    ensures Filter(s, S) == Filter(s, S')
  {
    if s != [] {
      FilterSame(s[..|s|-1], S, S');
    }
  }

  class Collector {
    var epoch: nat
    var data: seq<GcData>
    var handles: seq<GcHandle>
    var mail: seq<seq<GcData>>
    const trigger: T.GcTrigger
    /** The objects that the lists lead to; data not in the data list is new. */
    ghost var allData: set<GcData>
    ghost var allHandles: set<GcHandle>

    constructor ()
      ensures Valid() && epoch == 2 && data == [] && handles == [] && mail == []
      ensures fresh(trigger) && trigger.dataCountAtLastCollection == 0
    {
      epoch, data, handles, mail := 2, [], [], [];
      trigger := new T.GcTrigger();
      allData, allHandles := {}, {};
    }

    /** Lists without repetition; each handle inside at most one allocation; `Scan`
        reports only what is owned. */
    ghost predicate Shape()
      reads this`epoch, this`data, this`handles, this`allData, this`allHandles
      reads allData`owned, allData`reported, allData`finalized, allHandles`target
    {
      && epoch >= 2
      && Distinct(data) && (forall d | d in data :: d in allData)
      && HeapShape()
    }

    ghost predicate HeapShape()
      reads this`handles, this`allData, this`allHandles
      reads allData`owned, allData`reported, allData`finalized, allHandles`target
    {
      HeapOf(handles, allData, allHandles)
    }

    static ghost predicate HeapOf(registered: seq<GcHandle>, D: set<GcData>, H: set<GcHandle>)
      reads D`owned, D`reported, D`finalized, H`target
    {
      && Distinct(registered)
      && Elements(registered) == H
      && (forall h | h in H :: h.target in D)
      && Owners(D, H)
    }

    static ghost predicate Owners(D: set<GcData>, H: set<GcHandle>)
      reads D`owned, D`reported, D`finalized
    {
      && (forall d | d in D :: Elements(d.reported) <= Elements(d.owned) <= H)
      && (forall d | d in D :: Elements(d.finalized) <= Elements(d.owned))
      && (forall d, e, h | d in D && e in D && h in d.owned && h in e.owned :: d == e)
    }

    /** Between collections, with `batch` not yet deallocated: marks and stamps are old,
        no warrant is held, and a handle to swept data goes when the batch goes. */
    ghost predicate Pending(batch: seq<GcData>)
      reads this, allData, allHandles
    {
      && Shape()
      && Distinct(batch)
      && (forall d | d in batch :: d in allData && d !in data)
      && (forall d | d in data :: !d.exclusive && (d.lastMarked == 0 || d.lastMarked == epoch - 1))
      && (forall d | d in allData && d !in data && d !in batch :: d.lastMarked == 0)
      && (forall d | d in allData :: !d.deallocated && !d.freed)
      && (forall h | h in allHandles :: h.lastNonRooted < epoch)
      && PointersGoWith(Elements(batch), allHandles)
    }

    static ghost predicate PointersGoWith(ds: set<GcData>, H: set<GcHandle>)
      reads H`target, ds`owned, ds`reported, ds`finalized
    {
      forall h | h in H && h.target in ds :: h in ReleasedBy(ds)
    }

    lemma PendingFacts(batch: seq<GcData>)
      requires Pending(batch)
      ensures epoch >= 2 && Distinct(data) && HeapOf(handles, allData, allHandles)
      ensures Distinct(batch) && PointersGoWith(Elements(batch), allHandles)
      ensures forall d | d in data :: d in allData && !d.exclusive && (d.lastMarked == 0 || d.lastMarked == epoch - 1)
      ensures forall d | d in batch :: d in allData && d !in data
      ensures forall d | d in allData && d !in data && d !in batch :: d.lastMarked == 0
      ensures forall d | d in allData :: !d.deallocated && !d.freed
      ensures forall h | h in allHandles :: h.lastNonRooted < epoch
      ensures forall h :: h in handles <==> h in allHandles
    {
    }

    lemma PendingFrom(batch: seq<GcData>)
      requires epoch >= 2 && Distinct(data) && HeapOf(handles, allData, allHandles)
      requires Distinct(batch) && PointersGoWith(Elements(batch), allHandles)
      requires forall d | d in data :: d in allData && !d.exclusive && (d.lastMarked == 0 || d.lastMarked == epoch - 1)
      requires forall d | d in batch :: d in allData && d !in data
      requires forall d | d in allData && d !in data && d !in batch :: d.lastMarked == 0
      requires forall d | d in allData :: !d.deallocated && !d.freed
      requires forall h | h in allHandles :: h.lastNonRooted < epoch
      ensures Pending(batch)
    {
    }

    ghost predicate Settled()
      reads this, allData, allHandles
    {
      Pending([])
    }

    /** At any time between two collections: at most one batch is with the dropper. */
    ghost predicate Valid()
      reads this, allData, allHandles
    {
      |mail| <= 1 && Pending(Batch())
    }

    ghost function Batch(): seq<GcData>
      reads `mail
    {
      if mail == [] then [] else mail[0]
    }

    static ghost function ReleasedBy(ds: set<GcData>): set<GcHandle>
      reads ds`owned, ds`reported, ds`finalized
    {
      set d, h | d in ds && h in d.Released() :: h
    }

    ghost function Snapshot(): Graph<GcData, GcHandle>
      reads this`data, this`handles, this`allData, this`allHandles
      reads allData`owned, allData`reported, allData`shared, allHandles`target
    {
      Graph(set d | d in allData && d in data,
            set d | d in allData && d in data && d.shared > 0,
            set h | h in allHandles && h in handles,
            map h | h in allHandles :: h.target,
            map d | d in allData :: Elements(d.reported),
            map d | d in allData :: Elements(d.owned))
    }

    lemma SnapshotProper()
      requires Shape()
      ensures Proper(Snapshot())
    {
    }

    /** What a collection keeps and what it sends to the dropper. */
    ghost function Kept(): set<GcData>
      requires Shape() && Proper(Snapshot())
      reads this`epoch, this`data, this`handles, this`allData, this`allHandles
      reads allData`owned, allData`reported, allData`finalized, allData`shared, allHandles`target
    {
      set d | d in allData && d in data && Traced(Snapshot(), d)
    }

    // ---- the program, between collections

    lemma HeapGainsHandle(registered: seq<GcHandle>, D: set<GcData>, H: set<GcHandle>, h: GcHandle)
      requires HeapOf(registered, D, H) && h !in H && h.target in D
      ensures HeapOf(registered + [h], D, H + {h})
    {
    }

    lemma HeapGainsData(registered: seq<GcHandle>, D: set<GcData>, H: set<GcHandle>, d: GcData)
      requires HeapOf(registered, D, H) && d !in D && Apart(D, Elements(d.owned))
      requires Elements(d.reported) <= Elements(d.owned) <= H && Elements(d.finalized) <= Elements(d.owned)
      ensures HeapOf(registered, D + {d}, H)
    {
      hide Owners, Apart;
      OneMoreOwner(D, H, d);
    }

    lemma HeapLosesHandle(registered: seq<GcHandle>, D: set<GcData>, H: set<GcHandle>, h: GcHandle)
      requires HeapOf(registered, D, H) && forall d | d in D :: h !in d.owned
      ensures HeapOf(Filter(registered, Elements(registered) - {h}), D, H - {h})
    {
      FilterElements(registered, Elements(registered) - {h});
      assert forall d | d in D :: h !in Elements(d.owned);
    }

    lemma OwnerNotSwept(h: GcHandle, batch: seq<GcData>)
      requires Pending(batch) && h in handles && forall d | d in batch :: h !in d.owned
      ensures h.target in allData && h.target !in batch
    {
    }

    lemma OneMorePointer(ds: set<GcData>, H: set<GcHandle>, h: GcHandle)
      requires PointersGoWith(ds, H) && h.target !in ds
      ensures PointersGoWith(ds, H + {h})
    {
    }

    lemma OneLessPointer(ds: set<GcData>, H: set<GcHandle>, h: GcHandle)
      requires PointersGoWith(ds, H)
      ensures PointersGoWith(ds, H - {h})
    {
    }

    lemma AppendDistinct<T>(s: seq<T>, x: T)
      requires Distinct(s) && x !in s
      ensures Distinct(s + [x])
    {
    }

    /** `Gc::new`: the handle is registered before the data is tracked. The handles in
        `moved`, which nothing contains yet, go in with the value; its `Scan` reports
        some of them, and its finalizer, if any, invalidates some. */
    method Track(action: DeallocationAction, moved: seq<GcHandle>, reported: seq<GcHandle>, finalized: seq<GcHandle>)
      returns (h: GcHandle)
      requires Valid()
      requires forall m | m in moved :: m in handles && forall e | e in allData :: m !in e.owned
      requires Elements(reported) <= Elements(moved) && Elements(finalized) <= Elements(moved)
      modifies this`data, this`handles, this`allData, this`allHandles
      ensures Valid() && mail == old(mail) && fresh(h) && fresh(h.target)
      ensures handles == old(handles) + [h] && data == old(data) + [h.target]
      ensures h.target.lastMarked == 0 && h.target.shared == 0 && h.target.action == action
      ensures h.target.owned == moved && h.target.reported == reported && h.target.finalized == finalized
    {
      hide Pending, Shape, HeapShape, HeapOf, Distinct, PointersGoWith, Apart, Elements, Valid;
      AtMostOneBatch();
      PendingFacts(Batch());
      MovedApart(moved);
      var d := new GcData(action, moved, reported, finalized);
      h := new GcHandle(d);
      HeapGainsData(handles, allData, allHandles, d);
      HeapGainsHandle(handles, allData + {d}, allHandles, h);
      StillPointsElsewhere(d, h);
      AppendDistinct(data, d);
      handles, allHandles := handles + [h], allHandles + {h};
      data, allData := data + [d], allData + {d};
      hide Batch;
      PendingFrom(Batch());
      assert Valid() by { OneBatchIsValid(); }
    }

    lemma OneBatchIsValid()
      requires |mail| <= 1 && Pending(Batch())
      ensures Valid()
    {
    }

    lemma MovedApart(moved: seq<GcHandle>)
      requires forall m | m in moved :: m in allHandles && forall e | e in allData :: m !in e.owned
      ensures Elements(moved) <= allHandles && Apart(allData, Elements(moved))
    {
    }

    lemma StillPointsElsewhere(d: GcData, h: GcHandle)
      requires Pending(Batch()) && d !in allData && h.target == d
      ensures PointersGoWith(Elements(Batch()), allHandles + {h})
    {
      OneMorePointer(Elements(Batch()), allHandles, h);
    }

    /** `get`, through a handle that does not lie in garbage: one more shared warrant on its
        target, which is intact and in use from now on. */
    method Get(h: GcHandle) returns (d: GcData)
      requires Valid() && h in handles && forall e | e in Batch() :: h !in e.owned
      modifies h.target`shared
      ensures Valid() && d == h.target && d.shared == old(d.shared) + 1
      ensures d in allData && !d.deallocated && !d.freed && d !in Batch()
      ensures d in data ==> d in Snapshot().inUse
    {
      AtMostOneBatch();
      OwnerNotSwept(h, Batch());
      d := h.target;
      d.shared := d.shared + 1;
    }

    /** The guard that `get` returned is dropped. */
    method Put(d: GcData)
      requires Valid() && d in allData && d.shared > 0
      modifies d`shared
      ensures Valid() && d.shared == old(d.shared) - 1
      ensures d in Snapshot().inUse <==> d in data && d.shared > 0
    {
      d.shared := d.shared - 1;
    }

    /** `clone_handle`, of a handle that does not lie in garbage. */
    method CloneHandle(h: GcHandle) returns (k: GcHandle)
      requires Valid() && h in handles && forall d | d in Batch() :: h !in d.owned
      modifies this`handles, this`allHandles
      ensures Valid() && fresh(k) && k.target == h.target && handles == old(handles) + [k]
    {
      hide Pending, Shape, HeapShape, HeapOf, Distinct, PointersGoWith;
      AtMostOneBatch();
      PendingFacts(Batch());
      OwnerNotSwept(h, Batch());
      k := new GcHandle(h.target);
      HeapGainsHandle(handles, allData, allHandles, k);
      OneMorePointer(Elements(Batch()), allHandles, k);
      handles, allHandles := handles + [k], allHandles + {k};
      PendingFrom(Batch());
    }

    /** `drop_handle`, of a handle that the program holds itself. */
    method DropHandle(h: GcHandle)
      requires Valid() && forall d | d in allData :: h !in d.owned
      modifies this`handles, this`allHandles
      ensures Valid() && handles == Filter(old(handles), Elements(old(handles)) - {h})
    {
      hide Pending, Shape, HeapShape, HeapOf, Distinct, PointersGoWith;
      AtMostOneBatch();
      PendingFacts(Batch());
      HeapLosesHandle(handles, allData, allHandles, h);
      OneLessPointer(Elements(Batch()), allHandles, h);
      RemoveHandle(h);
      allHandles := allHandles - {h};
      PendingFrom(Batch());
    }

    static ghost predicate Apart(D: set<GcData>, hs: set<GcHandle>)
      reads D`owned
    {
      forall e | e in D :: Elements(e.owned) !! hs
    }

    lemma OneMoreOwner(D: set<GcData>, H: set<GcHandle>, d: GcData)
      requires Owners(D, H) && Elements(d.reported) <= Elements(d.owned) <= H
      requires Elements(d.finalized) <= Elements(d.owned) && Apart(D, Elements(d.owned))
      ensures Owners(D + {d}, H)
    {
      forall e, h | e in D && h in e.owned ensures h !in d.owned {
        assert h in Elements(e.owned) && h !in Elements(d.owned);
      }
    }

    lemma OneOwnerApart(D: set<GcData>, H: set<GcHandle>, d: GcData, h: GcHandle)
      requires Owners(D, H) && d in D && forall e | e in D :: h !in e.owned
      ensures Owners(D - {d}, H) && Apart(D - {d}, Elements(d.owned) + {h})
      ensures Elements(d.reported) <= Elements(d.owned) <= H && Elements(d.finalized) <= Elements(d.owned)
    {
    }

    /** The program moves a handle into data it has a warrant for, as `Get` gives it. */
    method MoveIn(h: GcHandle, d: GcData, reported: bool)
      requires Valid() && h in handles && (forall e | e in allData :: h !in e.owned)
      requires d in data && d.shared > 0
      modifies d`owned, d`reported
      ensures Valid() && d.owned == old(d.owned) + [h]
      ensures d.reported == if reported then old(d.reported) + [h] else old(d.reported)
    {
      hide Pending, Shape, HeapShape, Distinct, PointersGoWith, Owners, Apart;
      AtMostOneBatch();
      PendingFacts(Batch());
      OneOwnerApart(allData, allHandles, d, h);
      ElementsExtended(d.owned, h);
      ElementsExtended(d.reported, h);
      d.owned := d.owned + [h];
      if reported { d.reported := d.reported + [h]; }
      OneMoreOwner(allData - {d}, allHandles, d);
      assert allData - {d} + {d} == allData;
      PendingFrom(Batch());
    }

    // ---- the data pass

    /** Scanning `d` stamps the handles it reports. */
    method Stamp(d: GcData)
      requires Elements(d.reported) <= allHandles
      modifies allHandles`lastNonRooted
      ensures forall h | h in allHandles :: h.lastNonRooted == if h in d.reported then epoch else old(h.lastNonRooted)
    {
      for i := 0 to |d.reported|
        invariant forall h | h in allHandles ::
                    h.lastNonRooted == if h in d.reported[..i] then epoch else old(h.lastNonRooted)
      {
        assert d.reported[i] in Elements(d.reported);
        assert d.reported[..i+1] == d.reported[..i] + [d.reported[i]];
        d.reported[i].lastNonRooted := epoch;
      }
      assert d.reported[..|d.reported|] == d.reported;
    }

    /** Locks `d` and stamps what it reports, or, if it is in use, marks it. */
    method VisitData(d: GcData) returns (locked: bool)
      requires Shape() && d in data && !d.exclusive && (d.lastMarked == 0 || d.lastMarked == epoch - 1)
      modifies d`lastMarked, d`exclusive, allHandles`lastNonRooted
      ensures locked == (d.shared == 0) && d.exclusive == locked
      ensures d.lastMarked == if locked then epoch - 1 else epoch
      ensures forall h | h in allHandles ::
                h.lastNonRooted == if locked && h in d.reported then epoch else old(h.lastNonRooted)
    {
      if d.lastMarked == 0 {
        d.lastMarked := epoch - 1;
      }
      locked := d.shared == 0 && !d.exclusive;
      if locked {
        d.exclusive := true;
        Stamp(d);
      } else {
        d.lastMarked := epoch;
      }
    }

    /** Visits every slot of the data list and keeps the warrants. */
    method DataPass() returns (warrants: seq<GcData>)
      requires Settled()
      modifies allData`lastMarked, allData`exclusive, allHandles`lastNonRooted
      ensures Marks(Snapshot().inUse)
      ensures forall d | d in data :: d.exclusive == (d.shared == 0)
      ensures forall h | h in allHandles :: h.lastNonRooted <= epoch
      ensures forall h | h in allHandles :: h.lastNonRooted == epoch <==> Stamped(Snapshot(), h)
      ensures forall d :: d in warrants <==> d in data && d.shared == 0
    {
      hide Snapshot, Stamped, Shape, Settled, Pending, ReportedBy;
      DataFacts();
      hide Elements, Distinct, Marks;
      warrants := [];
      ReportedByNone();
      ghost var seen: set<GcData> := {};
      for i := 0 to |data|
        invariant forall j | 0 <= j < |data| :: data[j] in seen <==> j < i
        invariant forall d | d in data && d in seen ::
                    && d.lastMarked == (if d.shared > 0 then epoch else epoch - 1)
                    && d.exclusive == (d.shared == 0)
        invariant forall d | d in data && d !in seen ::
                    !d.exclusive && (d.lastMarked == 0 || d.lastMarked == epoch - 1)
        invariant forall d | d in allData && d !in data :: d.lastMarked == 0
        invariant forall d :: d in warrants <==> d in data && d in seen && d.shared == 0
        invariant forall h | h in allHandles ::
                    h.lastNonRooted <= epoch && (h.lastNonRooted == epoch <==> h in ReportedBy(warrants))
      {
        var locked := VisitData(data[i]);
        if locked {
          ReportedByNext(warrants, data[i]);
          warrants := warrants + [data[i]];
        }
        AppearsOnce(i);
        seen := seen + {data[i]};
      }
      StampedByWarrants(warrants);
      assert Marks(Snapshot().inUse) by { InUseIs(); MarksAre(Snapshot().inUse); }
    }

    lemma DataFacts()
      requires Settled()
      ensures Shape() && epoch >= 2 && Distinct(data)
      ensures forall d | d in data :: d in allData && Elements(d.reported) <= allHandles
      ensures forall d | d in data :: !d.exclusive && (d.lastMarked == 0 || d.lastMarked == epoch - 1)
      ensures forall d | d in allData && d !in data :: d.lastMarked == 0
      ensures forall h | h in allHandles :: h.lastNonRooted < epoch
    {
    }

    lemma AppearsOnce(i: nat)
      requires Distinct(data) && i < |data|
      ensures forall j | 0 <= j < |data| :: data[j] == data[i] ==> j == i
    {
    }

    lemma MarksAre(M: set<GcData>)
      requires forall d | d in data && d in allData :: d.lastMarked == if d in M then epoch else epoch - 1
      requires forall d | d in allData && d !in data :: d.lastMarked == 0
      ensures Marks(M)
    {
    }

    lemma DataKnown()
      requires Shape()
      ensures epoch >= 2 && Distinct(data) && forall d | d in data :: d in allData
    {
    }

    lemma InUseIs()
      requires Shape()
      ensures forall d | d in data :: d in Snapshot().inUse <==> d.shared > 0
    {
    }

    ghost function ReportedBy(ws: seq<GcData>): set<GcHandle>
      reads ws`reported
    {
      if ws == [] then {} else ReportedBy(ws[..|ws|-1]) + Elements(ws[|ws|-1].reported)
    }

    lemma ReportedByNone()
      ensures ReportedBy([]) == {}
    {
    }

    lemma ReportedByNext(ws: seq<GcData>, d: GcData)
      ensures ReportedBy(ws + [d]) == ReportedBy(ws) + Elements(d.reported)
    {
    }

    lemma {:induction false} ReportedByMember(ws: seq<GcData>, h: GcHandle)
      ensures h in ReportedBy(ws) <==> exists d :: d in ws && h in d.reported
    {
      if ws != [] {
        var n := |ws| - 1;
        ReportedByMember(ws[..n], h);
        assert forall d :: d in ws <==> d in ws[..n] || d == ws[n];
      }
    }

    lemma StampedByWarrants(warrants: seq<GcData>)
      requires Shape() && forall d :: d in warrants <==> d in data && d.shared == 0
      ensures forall h | h in allHandles :: Stamped(Snapshot(), h) <==> h in ReportedBy(warrants)
    {
      forall h | h in allHandles ensures Stamped(Snapshot(), h) <==> h in ReportedBy(warrants) {
        ReportedByMember(warrants, h);
        if d :| d in warrants && h in d.reported { assert d in Snapshot().tracked; }
      }
    }

    // ---- the handle pass

    /** What was not stamped is a root. */
    method HandlePass() returns (roots: seq<GcHandle>)
      requires Shape()
      requires forall h | h in allHandles :: h.lastNonRooted == epoch <==> Stamped(Snapshot(), h)
      ensures forall h :: h in roots <==> h in allHandles && Root(Snapshot(), h)
    {
      roots := [];
      for i := 0 to |handles|
        invariant forall h :: h in roots <==> h in handles[..i] && !Stamped(Snapshot(), h)
      {
        assert handles[..i+1] == handles[..i] + [handles[i]];
        if handles[i].lastNonRooted != epoch {
          roots := roots + [handles[i]];
        }
      }
      assert handles[..|handles|] == handles;
    }

    // ---- marking

    /** `M` is the marked part of the data list; data that is not in it is new. */
    ghost predicate Marks(M: set<GcData>)
      reads this`epoch, this`data, this`allData, allData`lastMarked
    {
      && (forall d | d in data && d in allData :: d.lastMarked == if d in M then epoch else epoch - 1)
      && (forall d | d in allData && d !in data :: d.lastMarked == 0)
    }

    /** One visit to freshly marked data: enqueue what it reports and is not marked. */
    method ScanInto(d: GcData, queue: seq<GcHandle>) returns (more: seq<GcHandle>)
      ensures forall h :: h in more ==> h in queue || h in d.reported
      ensures forall h :: h in queue ==> h in more
      ensures forall h :: h in d.reported ==> h.target.lastMarked == epoch || h in more
    {
      more := queue;
      for i := 0 to |d.reported|
        invariant forall h :: h in more ==> h in queue || h in d.reported
        invariant forall h :: h in queue ==> h in more
        invariant forall h :: h in d.reported[..i] ==> h.target.lastMarked == epoch || h in more
      {
        assert d.reported[..i+1] == d.reported[..i] + [d.reported[i]];
        if d.reported[i].target.lastMarked != epoch {
          more := more + [d.reported[i]];
        }
      }
      assert d.reported[..|d.reported|] == d.reported;
    }

    /** One worker's turn with the handle `h`. */
    method Visit(h: GcHandle, queue: seq<GcHandle>, ghost M: set<GcData>)
          returns (more: seq<GcHandle>, ghost M': set<GcData>)
      requires Shape() && Proper(Snapshot()) && MarkState(Snapshot(), M, [h] + queue) && Marks(M)
      requires h in allHandles
      modifies h.target`lastMarked
      ensures MarkState(Snapshot(), M', more) && Marks(M')
      ensures M' <= Snapshot().tracked && (M < M' || (M == M' && more == queue))
    {
      hide MarkState, Snapshot, Shape, Proper;
      QueueKnown(Snapshot(), M, [h] + queue);
      TrackedIs();
      assert h in [h] + queue;
      var d := h.target;
      more, M' := queue, M;
      if d.lastMarked != 0 {
        var previous := d.lastMarked;
        d.lastMarked := epoch;
        if previous != epoch {
          M' := M + {d};
          assert Marks(M');
          more := ScanInto(d, queue);
          FreshVisit(M, h, queue, more);
        } else {
          OldVisit(M, h, queue);
        }
      } else {
        OldVisit(M, h, queue);
      }
    }

    lemma OldVisit(M: set<GcData>, h: GcHandle, queue: seq<GcHandle>)
      requires Shape() && Proper(Snapshot()) && MarkState(Snapshot(), M, [h] + queue)
      requires h in allHandles && (h.target in M || h.target !in data)
      ensures MarkState(Snapshot(), M, queue)
    {
      MarkSkip(Snapshot(), M, h, queue);
    }

    lemma FreshVisit(M: set<GcData>, h: GcHandle, queue: seq<GcHandle>, more: seq<GcHandle>)
      requires Shape() && Proper(Snapshot()) && MarkState(Snapshot(), M, [h] + queue)
      requires h in allHandles && h.target in data && h.target !in M && Marks(M + {h.target})
      requires forall r :: r in more ==> r in queue || r in h.target.reported
      requires forall r :: r in queue ==> r in more
      requires forall r :: r in h.target.reported ==> r.target.lastMarked == epoch || r in more
      ensures MarkState(Snapshot(), M + {h.target}, more)
    {
      var g := Snapshot();
      forall r | r in g.reported[h.target] ensures Done(g, M + {h.target}, r) || r in more {
        assert r in h.target.reported && r in allHandles;
        if r.target.lastMarked == epoch {
          assert r.target in allData;
        }
      }
      MarkVisit(g, M, h, queue, more);
    }

    lemma RootsRegistered(roots: seq<GcHandle>)
      requires Shape() && forall h :: h in roots <==> h in allHandles && Root(Snapshot(), h)
      ensures forall h :: h in roots <==> h in Snapshot().registered && Root(Snapshot(), h)
    {
    }

    lemma QueueKnown(g: Graph<GcData, GcHandle>, M: set<GcData>, queue: seq<GcHandle>)
      requires g == Snapshot() && Shape() && Proper(g) && MarkState(g, M, queue)
      ensures forall h | h in queue :: h in allHandles && h.target in allData
      ensures M <= g.tracked && epoch >= 2
    {
    }

    lemma TrackedIs()
      requires Shape()
      ensures forall d :: d in Snapshot().tracked <==> d in data && d in allData
      ensures forall d | d in data :: d in allData
    {
    }

    /** Works the queue off, marking and scanning each allocation at most once. */
    method MarkPass(roots: seq<GcHandle>)
      requires Shape() && Proper(Snapshot()) && Marks(Snapshot().inUse)
      requires forall h :: h in roots <==> h in allHandles && Root(Snapshot(), h)
      modifies allData`lastMarked
      ensures Marks(Kept())
    {
      hide MarkState, Root, Traced, Snapshot;
      ghost var g := Snapshot();
      var queue := roots;
      ghost var M := g.inUse;
      RootsRegistered(roots);
      MarkStart(g, roots);
      while queue != []
        invariant MarkState(g, M, queue) && Marks(M)
        decreases g.tracked - M, |queue|
      {
        var h := queue[0];
        assert queue == [h] + queue[1..];
        QueueKnown(g, M, queue);
        ghost var before := M;
        queue, M := Visit(h, queue[1..], M);
        assert before < M ==> g.tracked - M < g.tracked - before;
      }
      MarkDone(g, M);
      TrackedIs();
      assert M == Kept();
    }

    // ---- release and sweep

    method ReleasePass(warrants: seq<GcData>)
      requires Shape() && forall d :: d in warrants <==> d in data && d.exclusive
      modifies allData`exclusive
      ensures forall d | d in data :: !d.exclusive
      ensures forall d | d in allData && d !in data :: d.exclusive == old(d.exclusive)
    {
      for i := 0 to |warrants|
        invariant forall d | d in data && d.exclusive :: d in warrants[i..]
        invariant forall d | d in allData && d !in data :: d.exclusive == old(d.exclusive)
      {
        warrants[i].exclusive := false;
      }
    }

    ghost function MarkedOrNew(): set<GcData>
      reads this`epoch, this`allData, allData`lastMarked
    {
      set d | d in allData && (d.lastMarked == 0 || d.lastMarked == epoch)
    }

    /** Takes the unmarked data off the list; what is new stays and is marked. */
    method SweepPass() returns (toDrop: seq<GcData>)
      requires Shape()
      modifies this`data, allData`lastMarked
      ensures data == Filter(old(data), old(MarkedOrNew()))
      ensures toDrop == Filter(old(data), allData - old(MarkedOrNew()))
      ensures forall d | d in allData ::
                d.lastMarked == if d in old(data) && d in old(MarkedOrNew()) then epoch else old(d.lastMarked)
    {
      hide Shape, Filter;
      DataKnown();
      ghost var K := MarkedOrNew();
      var slots, kept: seq<GcData> := data, [];
      toDrop := [];
      FilterNone(slots, K);
      FilterNone(slots, allData - K);
      for i := 0 to |slots|
        invariant kept == Filter(slots[..i], K) && toDrop == Filter(slots[..i], allData - K)
        invariant forall d | d in allData ::
                    d.lastMarked == if d in slots[..i] && d in K then epoch else old(d.lastMarked)
      {
        FilterNext(slots, i, K);
        FilterNext(slots, i, allData - K);
        assert slots[..i+1] == slots[..i] + [slots[i]];
        var d := slots[i];
        if d.lastMarked == 0 {
          d.lastMarked := epoch;
        }
        if d.lastMarked == epoch {
          kept := kept + [d];
        } else {
          toDrop := toDrop + [d];
        }
      }
      assert slots[..|slots|] == slots;
      data := kept;
    }

    /** After marking, what the sweep keeps is what tracing leads to. */
    lemma SweepKeepsTraced(K: set<GcData>)
      requires Shape() && Marks(K) && K <= allData
      ensures Filter(data, MarkedOrNew()) == Filter(data, K)
      ensures Filter(data, allData - MarkedOrNew()) == Filter(data, allData - K)
    {
      FilterSame(data, MarkedOrNew(), K);
      FilterSame(data, allData - MarkedOrNew(), allData - K);
    }

    lemma KeptIsData()
      requires Shape() && Proper(Snapshot())
      ensures forall d | d in Kept() :: d in data && d in allData
    {
    }

    /** The data pass and the handle pass. */
    method FindRoots() returns (warrants: seq<GcData>, roots: seq<GcHandle>)
      requires Settled()
      modifies allData`lastMarked, allData`exclusive, allHandles`lastNonRooted
      ensures Marks(Snapshot().inUse)
      ensures forall d :: d in warrants <==> d in data && d.exclusive
      ensures forall h | h in allHandles :: h.lastNonRooted <= epoch
      ensures forall h :: h in roots <==> h in allHandles && Root(Snapshot(), h)
    {
      hide Snapshot, Stamped, Root, Shape, HeapShape, HeapOf, Distinct, Settled, Pending, Marks;
      SettledFacts();
      warrants := DataPass();
      roots := HandlePass();
    }

    /** The passes up to the release of the warrants. */
    method Trace()
      requires Settled() && Proper(Snapshot())
      modifies allData`lastMarked, allData`exclusive, allHandles`lastNonRooted
      ensures Marks(Kept())
      ensures forall d | d in data :: !d.exclusive
      ensures forall h | h in allHandles :: h.lastNonRooted <= epoch
    {
      hide Snapshot, Kept, Stamped, Root, Proper, Shape, HeapShape, HeapOf, Distinct, Settled, Pending, Marks;
      SettledFacts();
      var warrants, roots := FindRoots();
      MarkPass(roots);
      ReleasePass(warrants);
    }

    /** One collection: keeps exactly what tracing leads to, in order, and sends the rest
        to the dropper as one batch. */
    method RunPasses()
      requires Settled() && Proper(Snapshot())
      modifies this`epoch, this`data, this`mail, trigger`dataCountAtLastCollection
      modifies allData`lastMarked, allData`exclusive, allHandles`lastNonRooted
      ensures data == Filter(old(data), old(Kept()))
      ensures mail == old(mail) + [Filter(old(data), allData - old(Kept()))]
      ensures epoch == old(epoch) + 1 && trigger.dataCountAtLastCollection == |data|
      ensures forall d | d in data :: !d.exclusive && d.lastMarked == epoch - 1
      ensures forall d | d in allData && d !in old(data) :: d.lastMarked == 0
      ensures forall h | h in allHandles :: h.lastNonRooted < epoch
      ensures Distinct(data)
    {
      hide Snapshot, Kept, Proper, Settled, Pending, Shape, Filter, MarkState;
      DataFacts();
      ghost var K, slots := Kept(), data;
      KeptIsData();
      Trace();
      SweepKeepsTraced(K);
      var toDrop := SweepPass();
      FilterElements(slots, K);
      forall d | d in data ensures d in slots && d in K && d.lastMarked == epoch {
        assert d in Filter(slots, K);
      }
      mail := mail + [toDrop];
      trigger.SetDataCountAfterCollection(|data|);
      epoch := epoch + 1;
    }

    // ---- the dropper

    /** `ChunkedLinkedList::remove`: finds the handle and cuts it out; nothing happens when
        it is gone already. */
    method RemoveHandle(h: GcHandle)
      requires Distinct(handles)
      modifies this`handles
      ensures handles == Filter(old(handles), Elements(old(handles)) - {h}) && Distinct(handles)
    {
      var i := 0;
      while i < |handles| && handles[i] != h
        invariant i <= |handles| && handles == old(handles)
        invariant h !in handles[..i]
      {
        assert handles[..i+1] == handles[..i] + [handles[i]];
        i := i + 1;
      }
      FilterElements(handles, Elements(handles) - {h});
      if i < |handles| {
        FilterCuts(handles, i);
        handles := handles[..i] + handles[i+1..];
      } else {
        assert handles[..i] == handles;
        FilterAll(handles, Elements(handles) - {h});
      }
    }

    method InvalidateAll(hs: seq<GcHandle>)
      requires Distinct(handles)
      modifies this`handles
      ensures handles == Filter(old(handles), Elements(old(handles)) - Elements(hs)) && Distinct(handles)
    {
      hide Filter, Elements, Distinct;
      ghost var all := handles;
      NothingRemoved(all, hs);
      for i := 0 to |hs|
        invariant handles == Filter(all, Elements(all) - Elements(hs[..i])) && Distinct(handles)
      {
        RemoveHandle(hs[i]);
        RemovedTwice(all, Elements(hs[..i]), {hs[i]});
        assert hs[..i+1] == hs[..i] + [hs[i]];
        ElementsExtended(hs[..i], hs[i]);
      }
      assert hs[..|hs|] == hs;
    }

    lemma NothingRemoved(all: seq<GcHandle>, hs: seq<GcHandle>)
      ensures Filter(all, Elements(all) - Elements(hs[..0])) == all
    {
      FilterAll(all, Elements(all) - Elements(hs[..0]));
    }

    lemma RemovedTwice(all: seq<GcHandle>, A: set<GcHandle>, B: set<GcHandle>)
      ensures var rest := Filter(all, Elements(all) - A);
              Filter(rest, Elements(rest) - B) == Filter(all, Elements(all) - (A + B))
    {
      var S := Elements(all) - A;
      var rest := Filter(all, S);
      FilterElements(all, S);
      FilterTwice(all, S, Elements(rest) - B);
      FilterSame(all, S * (Elements(rest) - B), Elements(all) - (A + B));
    }

    /** Runs what the allocation wants run and gives the memory back. Handles may be
        invalidated twice, by the scan and by the finalizer. */
    method Deallocate(d: GcData, ghost batch: seq<GcData>)
      requires d in batch && (forall e | e in batch :: e.deallocated) && !d.freed && Distinct(handles)
      modifies this`handles, d`freed
      ensures d.freed && Distinct(handles)
      ensures handles == Filter(old(handles), Elements(old(handles)) - d.Released())
      // dropping the value takes everything inside it off the list; otherwise the scan does
      // so with what it reports, and the finalizer with what it invalidates
      ensures forall h | h in old(handles) ::
                h in handles <==>
                  match d.action
                  case RunDrop => h !in d.owned
                  case BoxDrop => h !in d.owned
                  case DoNothing => h !in d.reported
                  case RunFinalizer => h !in d.reported && h !in d.finalized
    {
      match d.action {
        case DoNothing =>
          InvalidateAll(d.reported);
        case RunFinalizer =>
          InvalidateAll(d.reported);
          InvalidateAll(d.finalized);
          RemovedTwice(old(handles), Elements(d.reported), Elements(d.finalized));
        case RunDrop =>
          InvalidateAll(d.owned);
        case BoxDrop =>
          InvalidateAll(d.owned);
      }
      d.freed := true;
      FilterElements(old(handles), Elements(old(handles)) - d.Released());
    }

    lemma ReleasedByNone(batch: seq<GcData>)
      ensures ReleasedBy(Elements(batch[..0])) == {}
    {
    }

    lemma DistinctMembers(batch: seq<GcData>)
      requires Distinct(batch)
      ensures forall i, j | 0 <= i < |batch| && 0 <= j < |batch| && i != j :: batch[i] != batch[j]
    {
    }

    lemma ReleasedMembers(batch: seq<GcData>)
      ensures forall h :: h in ReleasedBy(Elements(batch)) <==> exists d :: d in batch && h in d.Released()
    {
    }

    lemma ReleasedByNext(batch: seq<GcData>, i: nat)
      requires i < |batch|
      ensures ReleasedBy(Elements(batch[..i+1])) == ReleasedBy(Elements(batch[..i])) + batch[i].Released()
    {
    }

    method FlagBatch(batch: seq<GcData>)
      modifies batch`deallocated
      ensures forall d | d in batch :: d.deallocated
    {
      for i := 0 to |batch|
        invariant forall d | d in batch[..i] :: d.deallocated
      {
        assert batch[..i+1] == batch[..i] + [batch[i]];
        batch[i].deallocated := true;
      }
      assert batch[..|batch|] == batch;
    }

    /** The dropper's work on one batch: flag it all, then deallocate each member once. */
    method DropBatch(batch: seq<GcData>)
      requires Distinct(handles) && Distinct(batch) && forall d | d in batch :: !d.freed
      modifies this`handles, batch`deallocated, batch`freed
      ensures Distinct(handles) && forall d | d in batch :: d.deallocated && d.freed
      ensures handles == Filter(old(handles), Elements(old(handles)) - ReleasedBy(Elements(batch)))
      // a handle goes exactly if some member that has it inside wants it gone
      ensures forall h | h in old(handles) ::
                h in handles <==>
                  forall d | d in batch ::
                    match d.action
                    case RunDrop => h !in d.owned
                    case BoxDrop => h !in d.owned
                    case DoNothing => h !in d.reported
                    case RunFinalizer => h !in d.reported && h !in d.finalized
    {
      hide ReleasedBy, Distinct, Filter;
      DistinctMembers(batch);
      FlagBatch(batch);
      ghost var all := handles;
      NothingReleased(all, batch);
      for i := 0 to |batch|
        invariant Distinct(handles) && forall d | d in batch :: d.deallocated
        invariant forall j | 0 <= j < |batch| :: batch[j].freed == (j < i)
        invariant handles == Filter(all, Elements(all) - ReleasedBy(Elements(batch[..i])))
      {
        Deallocate(batch[i], batch);
        RemovedTwice(all, ReleasedBy(Elements(batch[..i])), batch[i].Released());
        ReleasedByNext(batch, i);
      }
      assert batch[..|batch|] == batch;
      GoneExactly(all, batch);
    }

    lemma NothingReleased(all: seq<GcHandle>, batch: seq<GcData>)
      ensures Filter(all, Elements(all) - ReleasedBy(Elements(batch[..0]))) == all
    {
      ReleasedByNone(batch);
      FilterAll(all, Elements(all) - ReleasedBy(Elements(batch[..0])));
    }

    lemma GoneExactly(all: seq<GcHandle>, batch: seq<GcData>)
      ensures forall h | h in all ::
                h in Filter(all, Elements(all) - ReleasedBy(Elements(batch))) <==>
                  forall d | d in batch :: h !in d.Released()
    {
      var released := ReleasedBy(Elements(batch));
      FilterElements(all, Elements(all) - released);
      ReleasedMembers(batch);
      hide Filter, ReleasedBy;
      forall h | h in all ensures h in Elements(all) - released <==> h !in released {}
    }

    /** What is left when `batch` has gone: nothing left lies in it or points to it. */
    lemma GoneForGood(batch: seq<GcData>)
      requires Pending(batch)
      ensures var rest := Filter(handles, Elements(handles) - ReleasedBy(Elements(batch)));
              HeapOf(rest, allData - Elements(batch), Elements(rest))
    {
      var S := Elements(handles) - ReleasedBy(Elements(batch));
      FilterElements(handles, S);
      var rest, D := Filter(handles, S), allData - Elements(batch);
      assert forall h | h in Elements(handles) * S :: h in handles;
      forall d, h | d in D && h in d.owned ensures h in rest {
        assert h in Elements(d.owned);
        assert forall e | e in batch && h in e.Released() :: h in e.owned;
      }
    }

    lemma AtMostOneBatch()
      requires Valid()
      ensures |mail| <= 1 && Pending(Batch()) && Distinct(Batch()) && Distinct(handles)
      ensures forall d | d in Batch() :: !d.deallocated && !d.freed && d in allData
      ensures forall h :: h in handles <==> h in allHandles
    {
    }

    /** The dropper receives until its mail is empty. */
    method ServeMail()
      requires |mail| <= 1 && Distinct(handles) && Distinct(Batch()) && forall d | d in Batch() :: !d.freed
      modifies this`handles, this`mail, Batch()`deallocated, Batch()`freed
      ensures mail == []
      ensures forall d | d in old(Batch()) :: d.deallocated && d.freed
      ensures handles == Filter(old(handles), Elements(old(handles)) - ReleasedBy(Elements(old(Batch()))))
    {
      ghost var batch, all := Batch(), handles;
      if batch == [] {
        assert ReleasedBy(Elements(batch)) == {};
        FilterAll(all, Elements(all) - ReleasedBy(Elements(batch)));
      }
      assert mail == [] ==> batch == [];
      while mail != []
        invariant |mail| <= 1 && Distinct(handles)
        invariant mail != [] ==> mail[0] == batch && handles == all && forall d | d in batch :: !d.freed
        invariant mail == [] ==> handles == Filter(all, Elements(all) - ReleasedBy(Elements(batch)))
        invariant mail == [] ==> forall d | d in batch :: d.deallocated && d.freed
        decreases |mail|
      {
        var first := mail[0];
        mail := mail[1..];
        DropBatch(first);
      }
    }

    /** Waits until the dropper has worked off its mail. */
    method Synchronize()
      requires Valid()
      modifies this`handles, this`mail, this`allData, this`allHandles, Batch()`deallocated, Batch()`freed
      ensures Settled() && mail == []
      ensures forall d | d in old(Batch()) :: d.deallocated && d.freed
      ensures handles == Filter(old(handles), Elements(old(handles)) - old(ReleasedBy(Elements(Batch()))))
      ensures allData == old(allData) - Elements(old(Batch()))
      ensures allHandles == Elements(handles)
    {
      hide Filter, Pending, Valid, HeapOf, Shape, HeapShape, ReleasedBy, Distinct;
      AtMostOneBatch();
      ghost var batch, all := Batch(), handles;
      PendingFacts(batch);
      GoneForGood(batch);
      ServeMail();
      FilterElements(all, Elements(all) - ReleasedBy(Elements(batch)));
      allData := allData - Elements(batch);
      allHandles := Elements(handles);
      PendingFrom([]);
    }

    /** `g` is the heap with the data list `slots` and the handle list `registered`. */
    static ghost predicate Depicts(g: Graph<GcData, GcHandle>, slots: set<GcData>, registered: set<GcHandle>)
      reads slots`owned, slots`reported, slots`shared, registered`target
    {
      && g.tracked == slots && g.registered == registered
      && registered <= g.target.Keys && slots <= g.reported.Keys && slots <= g.owned.Keys
      && (forall h | h in registered :: g.target[h] == h.target)
      && (forall d | d in slots :: d in g.inUse <==> d.shared > 0)
      && (forall d | d in slots :: g.reported[d] == Elements(d.reported) && g.owned[d] == Elements(d.owned))
    }

    lemma SnapshotDepicts()
      requires Shape()
      ensures Depicts(Snapshot(), Elements(data), Elements(handles))
    {
    }

    /** A handle to something that is not kept is reported by something that is not kept. */
    lemma SweptIsPointedToBySwept(h: GcHandle)
      requires Settled() && Proper(Snapshot()) && h in allHandles && h.target in data && h.target !in Kept()
      ensures exists d :: d in data && d !in Kept() && h in d.reported
    {
      var g := Snapshot();
      if !Stamped(g, h) {
        RootIsTraced(g, h);
      }
      var d :| d in g.tracked && d !in g.inUse && d in g.reported && h in g.reported[d];
      if Traced(g, d) { TracedEdge(g, d, h); }
    }

    lemma SweptGoesWithItsHandles(batch: seq<GcData>)
      requires Settled() && Proper(Snapshot()) && batch == Filter(data, allData - Kept())
      ensures PointersGoWith(Elements(batch), allHandles)
    {
      FilterElements(data, allData - Kept());
      forall h | h in allHandles && h.target in batch ensures h in ReleasedBy(Elements(batch)) {
        SweptIsPointedToBySwept(h);
        var d :| d in data && d !in Kept() && h in d.reported;
        assert d in batch && h in d.Released();
      }
    }

    /** The passes, with what they leave for the dropper. */
    method RunFromRest(ghost g: Graph<GcData, GcHandle>)
      requires Settled() && mail == [] && g == Snapshot()
      modifies this`epoch, this`data, this`mail, trigger`dataCountAtLastCollection
      modifies allData`lastMarked, allData`exclusive, allHandles`lastNonRooted
      ensures Valid() && Proper(g)
      ensures Depicts(g, Elements(old(data)), Elements(handles))
      ensures data == Filter(old(data), set d | d in old(data) && Traced(g, d))
      ensures mail == [Filter(old(data), set d | d in old(data) && !Traced(g, d))]
      ensures epoch == old(epoch) + 1 && trigger.dataCountAtLastCollection == |data|
    {
      hide Pending, Settled, HeapOf, Shape, HeapShape, ReleasedBy, Distinct, PointersGoWith;
      hide Snapshot, Kept, Proper, Depicts, Traced;
      SettledFacts();
      SnapshotProper();
      SnapshotDepicts();
      ghost var K, slots := Kept(), data;
      ghost var batch := Filter(slots, allData - K);
      SweptGoesWithItsHandles(batch);
      KeptAndSwept(g);
      assert PointersGoWith(Elements(batch), allHandles);
      RunPasses();
      PendingAgain(slots, K, batch);
    }

    lemma SettledFacts()
      requires Settled()
      ensures Shape() && HeapShape() && epoch >= 2 && Distinct(data)
      ensures forall d | d in data :: d in allData
      ensures forall d | d in allData :: !d.deallocated && !d.freed
    {
    }

    lemma KeptAndSwept(g: Graph<GcData, GcHandle>)
      requires Settled() && g == Snapshot() && Proper(g)
      ensures Filter(data, Kept()) == Filter(data, set d | d in data && Traced(g, d))
      ensures Filter(data, allData - Kept()) == Filter(data, set d | d in data && !Traced(g, d))
    {
      FilterSame(data, Kept(), set d | d in data && Traced(g, d));
      FilterSame(data, allData - Kept(), set d | d in data && !Traced(g, d));
    }

    /** After the passes everything is in place but the batch. */
    lemma PendingAgain(slots: seq<GcData>, K: set<GcData>, batch: seq<GcData>)
      requires HeapShape() && epoch >= 2 && Distinct(slots) && forall d | d in slots :: d in allData
      requires data == Filter(slots, K) && batch == Filter(slots, allData - K)
      requires forall d | d in data :: !d.exclusive && d.lastMarked == epoch - 1
      requires forall d | d in allData && d !in slots :: d.lastMarked == 0
      requires forall h | h in allHandles :: h.lastNonRooted < epoch
      requires forall d | d in allData :: !d.deallocated && !d.freed
      requires PointersGoWith(Elements(batch), allHandles)
      ensures Pending(batch)
    {
      hide HeapShape, Filter;
      FilterElements(slots, K);
      FilterElements(slots, allData - K);
    }

    /** A whole collection: waits for the dropper, then runs the passes. */
    method Collect() returns (ghost g: Graph<GcData, GcHandle>)
      requires Valid()
      modifies this, trigger`dataCountAtLastCollection
      modifies allData`lastMarked, allData`exclusive, allHandles`lastNonRooted
      modifies Batch()`deallocated, Batch()`freed
      ensures Valid()
      // the heap as this collection finds it
      ensures Depicts(g, Elements(old(data)), Elements(old(handles)) - old(ReleasedBy(Elements(Batch())))) && Proper(g)
      // earlier garbage is gone, and what it held is no longer registered
      ensures forall d | d in old(Batch()) :: d.deallocated && d.freed
      ensures Elements(handles) == g.registered && allData == old(allData) - Elements(old(Batch()))
      // exactly what tracing leads to stays, in order; the rest is with the dropper
      ensures data == Filter(old(data), set d | d in old(data) && Traced(g, d))
      ensures mail == [Filter(old(data), set d | d in old(data) && !Traced(g, d))]
      // what only the handles in the earlier garbage pointed to goes this time
      ensures forall x | x in old(data) && old(Stranded(x)) :: x !in data && x in mail[0]
      ensures epoch == old(epoch) + 1 && trigger.dataCountAtLastCollection == |data|
    {
      hide Pending, Settled, Valid, HeapOf, Shape, HeapShape, ReleasedBy, Distinct, Snapshot, Proper, Traced;
      AtMostOneBatch();
      hide Elements, Filter, Stranded;
      ghost var all, released, slots := handles, ReleasedBy(Elements(Batch())), data;
      ghost var stranded := StrandedIn(slots);
      WhatIsLeft(all, released);
      StrandedByRelease(slots);
      Synchronize();
      g := Snapshot();
      SettledShape();
      SnapshotProper();
      NoneTraced(g, stranded);
      RunFromRest(g);
      StrandedGo(g, slots, stranded);
    }

    lemma WhatIsLeft(all: seq<GcHandle>, released: set<GcHandle>)
      ensures Elements(Filter(all, Elements(all) - released)) == Elements(all) - released
      ensures forall h | h in Filter(all, Elements(all) - released) :: h in all && h !in released
    {
      var S := Elements(all) - released;
      FilterElements(all, S);
      assert Elements(all) * S == S;
      forall h | h in Filter(all, S) ensures h in all && h !in released {
        assert h in S;
      }
    }

    /** `h` lies in data that is with the dropper, and goes when that is deallocated. */
    ghost predicate GoesWithBatch(h: GcHandle)
      reads `mail, Batch()`owned, Batch()`reported, Batch()`finalized
    {
      exists d :: d in Batch() &&
        match d.action
        case RunDrop => h in d.owned
        case BoxDrop => h in d.owned
        case DoNothing => h in d.reported
        case RunFinalizer => h in d.reported || h in d.finalized
    }

    /** Not in use, and pointed to only by such handles. */
    ghost predicate Stranded(x: GcData)
      reads this, x, handles, Batch()
    {
      x.shared == 0 && forall h | h in handles && h.target == x :: GoesWithBatch(h)
    }

    ghost function StrandedIn(slots: seq<GcData>): set<GcData>
      reads this, slots, handles, Batch()
    {
      set x | x in slots && Stranded(x)
    }

    lemma StrandedByRelease(slots: seq<GcData>)
      ensures forall x :: x in StrandedIn(slots) <==> x in slots && Stranded(x)
      ensures forall x | x in StrandedIn(slots) :: x.shared == 0
      ensures forall x, h | x in StrandedIn(slots) && h in handles && h.target == x ::
                h in ReleasedBy(Elements(Batch()))
    {
      forall h | GoesWithBatch(h) ensures h in ReleasedBy(Elements(Batch())) {
        ReleasedMembers(Batch());
      }
    }

    lemma SettledShape()
      requires Settled()
      ensures Shape()
    {
    }

    lemma NoneTraced(g: Graph<GcData, GcHandle>, xs: set<GcData>)
      requires Settled() && g == Snapshot() && Proper(g)
      requires forall x | x in xs :: x in data && x.shared == 0 && forall h | h in handles :: h.target != x
      ensures forall x | x in xs :: !Traced(g, x)
    {
      forall x | x in xs ensures !Traced(g, x) { LeftUnpointed(x); }
    }

    lemma StrandedGo(g: Graph<GcData, GcHandle>, slots: seq<GcData>, xs: set<GcData>)
      requires Proper(g) && forall x | x in xs :: x in slots && !Traced(g, x)
      requires data == Filter(slots, set d | d in slots && Traced(g, d))
      requires mail == [Filter(slots, set d | d in slots && !Traced(g, d))]
      ensures forall x | x in xs :: x !in data && x in mail[0]
    {
      FilterElements(slots, set d | d in slots && Traced(g, d));
      FilterElements(slots, set d | d in slots && !Traced(g, d));
    }

    lemma LeftUnpointed(x: GcData)
      requires Settled() && Proper(Snapshot()) && x in data && x.shared == 0
      requires forall h | h in handles :: h.target != x
      ensures x in Snapshot().tracked && !Traced(Snapshot(), x)
    {
      UnpointedIsNotTraced(Snapshot(), x);
    }

    method SetGcTriggerPercent(p: real)
      requires Valid()
      modifies trigger`allocationsTriggerPercent
      ensures Valid() && trigger.allocationsTriggerPercent == p
    {
      trigger.SetTriggerPercent(p);
    }

    /** The background check: collects exactly if a collection is due by the counts, and then
        nothing but a lack of handles asks for another one right away. */
    method CheckThenCollect() returns (collected: bool, ghost g: Graph<GcData, GcHandle>)
      requires Valid() && |data| < WORD && trigger.dataCountAtLastCollection < WORD
      modifies this, trigger`dataCountAtLastCollection
      modifies allData`lastMarked, allData`exclusive, allHandles`lastNonRooted
      modifies Batch()`deallocated, Batch()`freed
      ensures Valid() && collected == old(trigger.Due(|data|, |handles|))
      ensures !collected ==> data == old(data) && handles == old(handles) && mail == old(mail) && epoch == old(epoch)
      ensures !collected ==> trigger.dataCountAtLastCollection == old(trigger.dataCountAtLastCollection)
      ensures collected ==>
                && Proper(g) && Elements(handles) == g.registered
                && data == Filter(old(data), set d | d in old(data) && Traced(g, d))
                && mail == [Filter(old(data), set d | d in old(data) && !Traced(g, d))]
                && trigger.dataCountAtLastCollection == |data|
      ensures collected && trigger.allocationsTriggerPercent > 0.0 ==>
                forall n :: trigger.Due(|data|, n) <==> trigger.Enough(|data|) && trigger.FewHandles(|data|, n)
    {
      collected := trigger.ShouldCollect(|data|, |handles|);
      if collected {
        g := Collect();
        hide Valid, Proper, Traced, Filter, Depicts;
        if trigger.allocationsTriggerPercent > 0.0 {
          forall n ensures trigger.Due(|data|, n) <==> trigger.Enough(|data|) && trigger.FewHandles(|data|, n) {
            T.OnlyFewHandlesAskAgain(trigger, |data|, n);
          }
        }
      } else {
        g := Snapshot();
      }
    }

    /** If `Scan` reports everything then, whatever is done on deallocation, the handles
        that outlast the batch are those held outside and those in what was kept. */
    lemma HandlesConserved(g: Graph<GcData, GcHandle>, slots: seq<GcData>)
      requires Valid() && mail != []
      requires Proper(g) && Depicts(g, Elements(slots), Elements(handles)) && FullyReported(g)
      requires data == Filter(slots, set d | d in slots && Traced(g, d))
      requires mail[0] == Filter(slots, set d | d in slots && !Traced(g, d))
      ensures Conserved(g, Elements(data), Elements(handles) - ReleasedBy(Elements(Batch())))
    {
      FilterElements(slots, set d | d in slots && Traced(g, d));
      FilterElements(slots, set d | d in slots && !Traced(g, d));
      hide Filter, Traced;
      forall d | d in mail[0] ensures d.Released() == g.owned[d] {
        EverythingReleased(g, Elements(slots), d);
      }
      hide Valid, FullyReported;
      OwnedByRestGo(g, Elements(data), ReleasedBy(Elements(Batch())));
    }

    lemma EverythingReleased(g: Graph<GcData, GcHandle>, slots: set<GcData>, d: GcData)
      requires Valid() && mail != [] && d in mail[0] && d in slots
      requires Proper(g) && Depicts(g, slots, Elements(handles)) && FullyReported(g)
      ensures d.Released() == g.owned[d]
    {
      assert Elements(d.reported) == Elements(d.owned);
      assert Elements(d.finalized) <= Elements(d.owned);
    }

    lemma DepictsRegistered(g: Graph<GcData, GcHandle>, slots: set<GcData>, registered: set<GcHandle>)
      requires Depicts(g, slots, registered)
      ensures g.registered == registered
    {
    }

    /** Collection and clean-up at the end of a program. */
    method RunWithGcCleanup() returns (ghost g: Graph<GcData, GcHandle>)
      requires Valid()
      modifies this, trigger`dataCountAtLastCollection
      modifies allData`lastMarked, allData`exclusive, allHandles`lastNonRooted
      modifies allData`deallocated, allData`freed
      ensures Valid() && mail == []
      ensures Depicts(g, Elements(old(data)), Elements(old(handles)) - old(ReleasedBy(Elements(Batch())))) && Proper(g)
      // exactly what tracing leads to is left, and the rest has been deallocated
      ensures data == Filter(old(data), set d | d in old(data) && Traced(g, d))
      ensures forall d | d in old(data) && !Traced(g, d) :: d.deallocated && d.freed
      ensures FullyReported(g) ==> Conserved(g, Elements(data), Elements(handles))
    {
      hide Pending, HeapOf, Shape, HeapShape, ReleasedBy, Distinct;
      hide Snapshot, Proper, Traced, Conserved, FullyReported, Depicts;
      ghost var slots, registered := data, Elements(handles) - ReleasedBy(Elements(Batch()));
      AtMostOneBatch();
      g := Collect();
      DepictsRegistered(g, Elements(slots), registered);
      AtMostOneBatch();
      ghost var all, released := handles, ReleasedBy(Elements(Batch()));
      if FullyReported(g) { HandlesConserved(g, slots); }
      FilterElements(all, Elements(all) - released);
      assert Elements(all) * (Elements(all) - released) == Elements(all) - released;
      FilterElements(slots, set d | d in slots && !Traced(g, d));
      assert forall d | d in Batch() :: d in old(allData);
      Synchronize();
    }
  }
}
