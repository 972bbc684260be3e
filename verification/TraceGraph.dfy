// What one undisturbed collection has to compute, stated on a snapshot of the heap.
module TraceGraph {

  /** `tracked`: the data list; `inUse`: data with a shared warrant out; `registered`:
      the handle list; `reported` and `owned`: the handles that an allocation's `Scan`
      reports, and those that physically lie inside it. */
  datatype Graph<D, H> = Graph(
    tracked: set<D>,
    inUse: set<D>,
    registered: set<H>,
    target: map<H, D>,
    reported: map<D, set<H>>,
    owned: map<D, set<H>>)

  /** Each handle lies inside at most one allocation, and `Scan` reports only what the
      allocation owns. */
  ghost predicate Proper<D, H>(g: Graph<D, H>) {
    && g.inUse <= g.tracked
    && g.registered <= g.target.Keys
    && g.tracked <= g.reported.Keys && g.tracked <= g.owned.Keys
    && (forall d | d in g.tracked :: g.reported[d] <= g.owned[d] <= g.target.Keys)
    && (forall d, e, h | d in g.tracked && e in g.tracked && h in g.owned[d] && h in g.owned[e] :: d == e)
  }

  // ---- the collector's notion

  /** `h` is found in an allocation that is not in use. */
  ghost predicate Stamped<D, H>(g: Graph<D, H>, h: H) {
    exists d :: d in g.tracked && d !in g.inUse && d in g.reported && h in g.reported[d]
  }

  ghost predicate Root<D, H>(g: Graph<D, H>, h: H) {
    h in g.registered && !Stamped(g, h)
  }

  ghost predicate TraceClosed<D, H>(g: Graph<D, H>, S: set<D>)
    requires Proper(g)
  {
    && g.inUse <= S
    && (forall h | h in g.registered && Root(g, h) && g.target[h] in g.tracked :: g.target[h] in S)
    && (forall d, h | d in S && d in g.tracked && d !in g.inUse && h in g.reported[d] && g.target[h] in g.tracked ::
          g.target[h] in S)
  }

  /** Kept by a collection: in every set closed under tracing. */
  ghost predicate Traced<D, H>(g: Graph<D, H>, d: D)
    requires Proper(g)
  {
    forall S | S <= g.tracked && TraceClosed(g, S) :: d in S
  }

  /** What is not in use and what nothing points to is not kept. */
  lemma UnpointedIsNotTraced<D, H>(g: Graph<D, H>, d: D)
    requires Proper(g) && d in g.tracked && d !in g.inUse
    requires forall h | h in g.target :: g.target[h] != d
    ensures !Traced(g, d)
  {
    assert TraceClosed(g, g.tracked - {d});
  }

  // ---- the program's notion

  /** `h` is held by the program, or by something the collector does not track. */
  ghost predicate Outside<D, H>(g: Graph<D, H>, h: H) {
    h in g.registered && forall d | d in g.tracked && d in g.owned :: h !in g.owned[d]
  }

  ghost predicate ReachClosed<D, H>(g: Graph<D, H>, S: set<D>)
    requires Proper(g)
  {
    && g.inUse <= S
    && (forall h | h in g.registered && Outside(g, h) && g.target[h] in g.tracked :: g.target[h] in S)
    && (forall d, h | d in S && d in g.tracked && h in g.owned[d] && h in g.registered && g.target[h] in g.tracked ::
          g.target[h] in S)
  }

  /** Reachable for the program: in every set closed under following owned handles. */
  ghost predicate Reached<D, H>(g: Graph<D, H>, d: D)
    requires Proper(g)
  {
    forall S | S <= g.tracked && ReachClosed(g, S) :: d in S
  }

  /** Every owned handle is reported, and registered as long as its owner is tracked. */
  ghost predicate FullyReported<D, H>(g: Graph<D, H>)
    requires Proper(g)
  {
    forall d | d in g.tracked :: g.reported[d] == g.owned[d] && g.owned[d] <= g.registered
  }

  /** However little `Scan` reports, everything reachable is kept. */
  lemma ReachedIsTraced<D, H>(g: Graph<D, H>, d: D)
    requires Proper(g) && Reached(g, d)
    ensures Traced(g, d)
  {
    forall S | S <= g.tracked && TraceClosed(g, S) ensures d in S {
      TraceClosedReaches(g, S);
    }
  }

  lemma TraceClosedReaches<D, H>(g: Graph<D, H>, S: set<D>)
    requires Proper(g) && TraceClosed(g, S)
    ensures ReachClosed(g, S)
  {
  }

  /** When `Scan` reports everything, exactly what is reachable is kept: no cycle of
      garbage survives. */
  lemma TracedIsReached<D, H>(g: Graph<D, H>, d: D)
    requires Proper(g) && FullyReported(g)
    ensures Traced(g, d) <==> Reached(g, d)
  {
    if Reached(g, d) { ReachedIsTraced(g, d); }
    if Traced(g, d) {
      forall S | S <= g.tracked && ReachClosed(g, S) ensures d in S {
        ReachClosedTraces(g, S);
      }
    }
  }

  lemma ReachClosedTraces<D, H>(g: Graph<D, H>, S: set<D>)
    requires Proper(g) && FullyReported(g) && ReachClosed(g, S)
    ensures TraceClosed(g, S)
  {
  }

  /** Of the registered handles, those held outside and those inside `kept` are left. */
  ghost predicate Conserved<D, H>(g: Graph<D, H>, kept: set<D>, left: set<H>) {
    forall h | h in g.registered ::
      h in left <==> Outside(g, h) || exists d :: d in kept && d in g.owned && h in g.owned[d]
  }

  /** What is left when the handles inside everything but `kept` go. */
  lemma OwnedByRestGo<D, H>(g: Graph<D, H>, kept: set<D>, gone: set<H>)
    requires Proper(g) && kept <= g.tracked
    requires forall h :: h in gone <==> exists d :: d in g.tracked && d !in kept && h in g.owned[d]
    ensures Conserved(g, kept, g.registered - gone)
  {
  }

  // ---- working off the queue

  /** Needs no further visit: marked, or not tracked. */
  ghost predicate Done<D, H>(g: Graph<D, H>, M: set<D>, h: H) {
    h in g.target && (g.target[h] in M || g.target[h] !in g.tracked)
  }

  /** `M` is marked and `queue` is still to be looked at. */
  ghost predicate MarkState<D, H>(g: Graph<D, H>, M: set<D>, queue: seq<H>)
    requires Proper(g)
  {
    && g.inUse <= M <= g.tracked
    && (forall h | h in queue :: h in g.target)
    // marked or queued: only what tracing leads to
    && (forall d | d in M :: Traced(g, d))
    && (forall h | h in queue && g.target[h] in g.tracked :: Traced(g, g.target[h]))
    // nothing that tracing leads to is forgotten
    && (forall h | h in g.registered && Root(g, h) :: Done(g, M, h) || h in queue)
    && (forall d, h | d in M && d !in g.inUse && h in g.reported[d] :: Done(g, M, h) || h in queue)
  }

  lemma MarkStart<D, H>(g: Graph<D, H>, roots: seq<H>)
    requires Proper(g)
    requires forall h :: h in roots <==> h in g.registered && Root(g, h)
    ensures MarkState(g, g.inUse, roots)
  {
  }

  lemma MarkSkip<D, H>(g: Graph<D, H>, M: set<D>, h: H, queue: seq<H>)
    requires Proper(g) && MarkState(g, M, [h] + queue) && Done(g, M, h)
    ensures MarkState(g, M, queue)
  {
  }

  lemma MarkVisit<D, H>(g: Graph<D, H>, M: set<D>, h: H, queue: seq<H>, more: seq<H>)
    requires Proper(g) && MarkState(g, M, [h] + queue)
    requires h in g.target && g.target[h] in g.tracked - M
    requires forall r | r in more :: r in queue || r in g.reported[g.target[h]]
    requires forall r | r in queue :: r in more
    requires forall r | r in g.reported[g.target[h]] :: Done(g, M + {g.target[h]}, r) || r in more
    ensures MarkState(g, M + {g.target[h]}, more)
  {
    var d := g.target[h];
    assert forall x :: x in [h] + queue <==> x == h || x in queue;
    forall r | r in g.reported[d] && g.target[r] in g.tracked ensures Traced(g, g.target[r]) {
      TracedEdge(g, d, r);
    }
  }

  lemma RootIsTraced<D, H>(g: Graph<D, H>, h: H)
    requires Proper(g) && Root(g, h) && g.target[h] in g.tracked
    ensures Traced(g, g.target[h])
  {
  }

  lemma TracedEdge<D, H>(g: Graph<D, H>, d: D, h: H)
    requires Proper(g) && d in g.tracked && d !in g.inUse && Traced(g, d)
    requires h in g.reported[d] && g.target[h] in g.tracked
    ensures Traced(g, g.target[h])
  {
  }

  lemma MarkDone<D, H>(g: Graph<D, H>, M: set<D>)
    requires Proper(g) && MarkState(g, M, [])
    ensures forall d :: d in M <==> d in g.tracked && Traced(g, d)
  {
    assert TraceClosed(g, M);
  }
}
