// Two programs that lose data by an untimely drop, as runs from the first state.
module UntimelyRuns {
  import opened Heap
  import opened Steps
  import opened Invariant
  import opened UntimelyDrop

  const FRESH: State := INIT.(
    handles := map[0 := Handle(0, false, 0, Heap.Program)],
    data := map[0 := Datum(0, Shared(0), Tracked, false)])

  /** One allocation held by one pointer, seen and locked by the data pass; the handle
      pass is about to begin its round. */
  const IN_PASS: State := State(2, FRESH.handles, map[0 := Datum(1, Exclusive, Tracked, false)],
                                HandlePass({0}, {}), map[], [], NoWork, {0}, 1, map[])

  lemma ToFresh()
    ensures Leads(INIT, [ByProgram(New(0, 0, map[])), ByProgram(Track(0, 0)), ByProgram(CountUp(0))], FRESH)
  {
    var e1, e2, e3 := ByProgram(New(0, 0, map[])), ByProgram(Track(0, 0)), ByProgram(CountUp(0));
    var s1 := Apply(INIT, e1);
    assert s1.handles == FRESH.handles;
    assert s1.data == map[0 := Datum(0, Shared(0), Ready, false)];
    var s2 := Apply(s1, e2);
    assert s2 == FRESH.(counting := map[0 := 0]);
    assert Apply(s2, e3) == FRESH;
    hide Enabled, Apply;
    LeadsCons(s2, e3, [], FRESH);
    LeadsCons(s1, e2, [e3] + [], FRESH);
    LeadsCons(INIT, e1, [e2] + ([e3] + []), FRESH);
    assert [e1] + ([e2] + ([e3] + [])) == [e1, e2, e3];
  }

  lemma ToLocked(s: State)
    requires s == FRESH.(phase := DataPass({0}, {}), acked := {0}, tickets := 1)
    ensures Leads(s, [ByCollector(Note(0)), ByCollector(LockData(0)), ByCollector(DataPassEnd)], IN_PASS)
  {
    var e1, e2, e3 := ByCollector(Note(0)), ByCollector(LockData(0)), ByCollector(DataPassEnd);
    var s1 := Apply(s, e1);
    assert s1.data == map[0 := Datum(1, Shared(0), Tracked, false)];
    assert s1.phase == DataPass({0}, {0});
    var s2 := Apply(s1, e2);
    assert s2.data == IN_PASS.data;
    assert s2.handles == IN_PASS.handles;
    assert s2.phase == DataPass({}, {});
    assert RegisteredHandles(s2) == {0};
    assert Apply(s2, e3) == IN_PASS;
    hide Enabled, Apply;
    LeadsCons(s2, e3, [], IN_PASS);
    LeadsCons(s1, e2, [e3] + [], IN_PASS);
    LeadsCons(s, e1, [e2] + ([e3] + []), IN_PASS);
    assert [e1] + ([e2] + ([e3] + [])) == [e1, e2, e3];
  }

  lemma ToDataPass()
    ensures Leads(FRESH, [ByCollector(Begin), ByDropper(Receive), ByCollector(SyncReturn)],
                  FRESH.(phase := DataPass({0}, {}), acked := {0}, tickets := 1))
  {
    var e1, e2, e3 := ByCollector(Begin), ByDropper(Receive), ByCollector(SyncReturn);
    var s1 := Apply(FRESH, e1);
    assert s1 == FRESH.(phase := Syncing(0), mail := [SyncUp(0)], tickets := 1);
    var s2 := Apply(s1, e2);
    assert s2 == FRESH.(phase := Syncing(0), acked := {0}, tickets := 1);
    var s3 := FRESH.(phase := DataPass({0}, {}), acked := {0}, tickets := 1);
    assert TrackedData(s2) == {0};
    assert Apply(s2, e3) == s3;
    hide Enabled, Apply;
    LeadsCons(s2, e3, [], s3);
    LeadsCons(s1, e2, [e3] + [], s3);
    LeadsCons(FRESH, e1, [e2] + ([e3] + []), s3);
    assert [e1] + ([e2] + ([e3] + [])) == [e1, e2, e3];
  }

  lemma {:induction false} LeadsOn(s: State, es: seq<Step>, s1: State, es': seq<Step>, s2: State)
    requires Leads(s, es, s1) && Leads(s1, es', s2)
    ensures Leads(s, es + es', s2)
    decreases |es|
  {
    hide Enabled, Apply, DropTimely;
    if es == [] {
      assert es + es' == es';
    } else {
      LeadsOn(Apply(s, es[0]), es[1..], s1, es', s2);
      assert (es + es')[1..] == es[1..] + es';
    }
  }

  /** A program that makes one allocation and, during the first collection, clones its
      pointer and drops the original, can be left with a pointer to swept data. */
  lemma SafetyNeedsTimelyDrops() returns (before: seq<Step>, after: seq<Step>, s': State)
    ensures Leads(INIT, before, IN_PASS) && Unseen(IN_PASS, 0)
    ensures Leads(AfterSwap(IN_PASS, 0, 1), after, s') && Dangling(s', 0, 1)
  {
    before := ToInPass();
    InPassUncovered();
    hide Inv, Covered, Enabled, Apply, DropTimely;
    InitInv();
    LeadsInv(INIT, before, IN_PASS);
    after, s' := UncoveredBreaks(IN_PASS, 0, 1);
  }

  lemma InPassUncovered()
    ensures Unseen(IN_PASS, 0) && !Covered(AfterSwap(IN_PASS, 0, 1), IN_PASS.handles[0].target)
  {
  }

  lemma ToInPass() returns (before: seq<Step>)
    ensures Leads(INIT, before, IN_PASS)
  {
    hide Enabled, Apply, DropTimely;
    ToFresh();
    ToDataPass();
    var s1 := FRESH.(phase := DataPass({0}, {}), acked := {0}, tickets := 1);
    ToLocked(s1);
    var a := [ByProgram(New(0, 0, map[])), ByProgram(Track(0, 0)), ByProgram(CountUp(0))];
    var b := [ByCollector(Begin), ByDropper(Receive), ByCollector(SyncReturn)];
    var c := [ByCollector(Note(0)), ByCollector(LockData(0)), ByCollector(DataPassEnd)];
    LeadsOn(INIT, a, FRESH, b, s1);
    LeadsOn(INIT, a + b, s1, c, IN_PASS);
    before := a + b + c;
  }

  /** The list 0 -> 1 held by its head, both parts locked: a state of the invariant in
      which walking on to 1 and dropping the head loses 1. */
  const TWO: State := State(
    2,
    map[0 := Handle(0, false, 0, Heap.Program), 1 := Handle(1, false, 2, Inside(0, true))],
    map[0 := Datum(1, Exclusive, Tracked, false), 1 := Datum(1, Exclusive, Tracked, false)],
    HandlePass({0, 1}, {}), map[], [], NoWork, {0}, 1, map[])

  /** A run gets there, and then on to a pointer that dangles. */
  lemma WalkHappens() returns (before: seq<Step>, after: seq<Step>, s': State)
    ensures Leads(INIT, before, TWO) && Unseen(TWO, 0)
    ensures Leads(AfterWalk(TWO, 0, 1, 2), after, s') && Dangling(s', 1, 2)
  {
    before := ToTwo();
    TwoUncovered();
    hide Inv, Covered, Leads, Enabled, Apply;
    InitInv();
    LeadsInv(INIT, before, TWO);
    after, s' := WalkBreaks(TWO, 0, 1, 2);
  }

  lemma TwoUncovered()
    ensures Unseen(TWO, 0) && !Covered(AfterWalk(TWO, 0, 1, 2), 1)
  {
    assert CoverClosed(AfterWalk(TWO, 0, 1, 2), {});
  }

  /** The list is built: 1, and then 0 around the handle to it. */
  const BUILT: State := INIT.(
    handles := map[0 := Handle(0, false, 0, Heap.Program), 1 := Handle(1, false, 0, Inside(0, true))],
    data := map[0 := Datum(0, Shared(0), Tracked, false), 1 := Datum(0, Shared(0), Tracked, false)])

  lemma BuildOne() returns (s1: State, s2: State, s3: State)
    ensures Next(INIT, ByProgram(New(1, 1, map[])), s1) && Next(s1, ByProgram(Track(1, 1)), s2)
    ensures Next(s2, ByProgram(CountUp(1)), s3)
    ensures s3 == INIT.(handles := map[1 := Handle(1, false, 0, Heap.Program)],
                        data := map[1 := Datum(0, Shared(0), Tracked, false)])
  {
    var handles := map[1 := Handle(1, false, 0, Heap.Program)];
    s1 := INIT.(handles := handles, data := map[1 := Datum(0, Shared(0), Ready, false)]);
    s3 := INIT.(handles := handles, data := map[1 := Datum(0, Shared(0), Tracked, false)]);
    s2 := s3.(counting := map[1 := 1]);
  }

  lemma BuildTwo(s3: State) returns (s4: State)
    requires s3 == INIT.(handles := map[1 := Handle(1, false, 0, Heap.Program)],
                         data := map[1 := Datum(0, Shared(0), Tracked, false)])
    ensures Next(s3, ByProgram(New(0, 0, map[1 := true])), s4)
    ensures s4 == BUILT.(data := s4.data) && s4.data == BUILT.data[0 := Datum(0, Shared(0), Ready, false)]
  {
    s4 := BUILT.(data := map[0 := Datum(0, Shared(0), Ready, false), 1 := Datum(0, Shared(0), Tracked, false)]);
  }

  lemma TrackTwo(s4: State) returns (s5: State)
    requires s4 == BUILT.(data := s4.data) && s4.data == BUILT.data[0 := Datum(0, Shared(0), Ready, false)]
    ensures Next(s4, ByProgram(Track(0, 0)), s5) && Next(s5, ByProgram(CountUp(0)), BUILT)
  {
    s5 := BUILT.(counting := map[0 := 0]);
  }

  lemma ToBuilt() returns (es: seq<Step>)
    ensures Leads(INIT, es, BUILT)
  {
    hide Next;
    var s1, s2, s3 := BuildOne();
    var s4 := BuildTwo(s3);
    var s5 := TrackTwo(s4);
    es := [];
    es := LeadsOneMore(INIT, es, INIT, ByProgram(New(1, 1, map[])), s1);
    es := LeadsOneMore(INIT, es, s1, ByProgram(Track(1, 1)), s2);
    es := LeadsOneMore(INIT, es, s2, ByProgram(CountUp(1)), s3);
    es := LeadsOneMore(INIT, es, s3, ByProgram(New(0, 0, map[1 := true])), s4);
    es := LeadsOneMore(INIT, es, s4, ByProgram(Track(0, 0)), s5);
    es := LeadsOneMore(INIT, es, s5, ByProgram(CountUp(0)), BUILT);
  }

  /** The collection has come to its data pass. */
  function AtPass(): State {
    BUILT.(phase := DataPass({0, 1}, {}), acked := {0}, tickets := 1)
  }

  lemma PassSteps() returns (s1: State, s2: State)
    ensures Next(BUILT, ByCollector(Begin), s1) && Next(s1, ByDropper(Receive), s2)
    ensures Next(s2, ByCollector(SyncReturn), AtPass())
  {
    s1 := BUILT.(phase := Syncing(0), mail := [SyncUp(0)], tickets := 1);
    s2 := BUILT.(phase := Syncing(0), acked := {0}, tickets := 1);
    assert TrackedData(s2) == {0, 1};
  }

  /** The data pass has locked 0. */
  function HalfLocked(): State {
    AtPass().(data := map[0 := Datum(1, Exclusive, Tracked, false), 1 := Datum(0, Shared(0), Tracked, false)],
              handles := TWO.handles, phase := DataPass({1}, {}))
  }

  lemma LockFirst() returns (s1: State)
    ensures Next(AtPass(), ByCollector(Note(0)), s1) && Next(s1, ByCollector(LockData(0)), HalfLocked())
  {
    hide ProgramEnabled, ProgramApply, WorkerEnabled, WorkerApply, DropperEnabled, DropperApply;
    s1 := AtPass().(
      data := map[0 := Datum(1, Shared(0), Tracked, false), 1 := Datum(0, Shared(0), Tracked, false)],
      phase := DataPass({0, 1}, {0}));
    NotedState(AtPass(), 0, s1);
    VisitedState(s1, 0, HalfLocked());
  }

  lemma LockSecond() returns (s1: State, s2: State)
    ensures Next(HalfLocked(), ByCollector(Note(1)), s1) && Next(s1, ByCollector(LockData(1)), s2)
    ensures Next(s2, ByCollector(DataPassEnd), TWO)
  {
    hide ProgramEnabled, ProgramApply, WorkerEnabled, WorkerApply, DropperEnabled, DropperApply;
    s1 := HalfLocked().(
      data := map[0 := Datum(1, Exclusive, Tracked, false), 1 := Datum(1, Shared(0), Tracked, false)],
      phase := DataPass({1}, {1}));
    s2 := HalfLocked().(data := TWO.data, phase := DataPass({}, {}));
    NotedState(HalfLocked(), 1, s1);
    VisitedState(s1, 1, s2);
    assert RegisteredHandles(s2) == {0, 1};
  }

  lemma ToTwo() returns (es: seq<Step>)
    ensures Leads(INIT, es, TWO)
  {
    hide Next;
    es := ToBuilt();
    var s1, s2 := PassSteps();
    var s3 := LockFirst();
    var s4, s5 := LockSecond();
    es := LeadsOneMore(INIT, es, BUILT, ByCollector(Begin), s1);
    es := LeadsOneMore(INIT, es, s1, ByDropper(Receive), s2);
    es := LeadsOneMore(INIT, es, s2, ByCollector(SyncReturn), AtPass());
    es := LeadsOneMore(INIT, es, AtPass(), ByCollector(Note(0)), s3);
    es := LeadsOneMore(INIT, es, s3, ByCollector(LockData(0)), HalfLocked());
    es := LeadsOneMore(INIT, es, HalfLocked(), ByCollector(Note(1)), s4);
    es := LeadsOneMore(INIT, es, s4, ByCollector(LockData(1)), s5);
    es := LeadsOneMore(INIT, es, s5, ByCollector(DataPassEnd), TWO);
  }

  lemma NotedState(s: State, d: DataId, s': State)
    requires CollectorEnabled(s, Note(d)) && s' == s.(data := s'.data, phase := s'.phase)
    requires s.data[d].mark == 0 && s'.data == s.data[d := s.data[d].(mark := Previous(s.epoch))]
    requires s'.phase == DataPass(s.phase.dataTodo + {d}, s.phase.noted + {d})
    ensures Apply(s, ByCollector(Note(d))) == s'
  {
  }

  lemma VisitedState(s: State, d: DataId, s': State)
    requires CollectorEnabled(s, LockData(d)) && s' == s.(data := s'.data, handles := s'.handles, phase := s'.phase)
    requires s.data[d].lock == Shared(0) && s'.data == s.data[d := s.data[d].(lock := Exclusive)]
    requires s'.handles == StampAll(s, d).handles
    requires s'.phase == DataPass(s.phase.dataTodo - {d}, s.phase.noted - {d})
    ensures Apply(s, ByCollector(LockData(d))) == s'
  {
  }

  lemma LeadsOneMore(s: State, es: seq<Step>, s1: State, e: Step, s2: State) returns (more: seq<Step>)
    requires Leads(s, es, s1) && Next(s1, e, s2)
    ensures Leads(s, more, s2)
  {
    hide Enabled, Apply, DropTimely;
    LeadsCons(s1, e, [], s2);
    more := es + ([e] + []);
    LeadsOn(s, es, s1, [e] + [], s2);
  }
}
