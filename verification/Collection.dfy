/** One garbage collection pass, exactly: what comes back, what stays, and that a second pass finds nothing. */
module Collection {
  import opened Basics
  import opened Inspection
  import opened Model
  import opened Safety
  import opened SafetyOfSteps
  import opened Placement
  import opened Once
  import opened OnceTicks

  /** The node is held by one of the listed workers, and that worker has not pinged in time. */
  ghost predicate Orphaned(b: State, n: Id, ws: seq<Id>, now: int)
    requires n in b.nodes
  {
    var holder := b.nodes[n].dequeueWorker;
    holder.Some? && holder.value in ws && holder.value in b.workers && Stale(b.workers[holder.value], now)
  }

  function Retired(worker: Worker): Worker {
    worker.(claimedWork := [], invalidated := true)
  }

  // ---------------------------------------------------------------- queues of held nodes exist

  ghost predicate Rooted(b: State, ns: seq<Id>) {
    forall n | n in ns :: n in b.nodes && b.nodes[n].nextRetry == -1 && b.nodes[n].decl.queueName in b.queues
  }

  lemma ReclaimOneExact(b: State, n: Id, now: int)
    requires AllKnown(b) && n in b.nodes && b.nodes[n].nextRetry == -1 && b.nodes[n].decl.queueName in b.queues
    ensures Reclaim(b, n, now).workers == b.workers && Reclaim(b, n, now).queues.Keys == b.queues.Keys
    ensures Reclaim(b, n, now).nodes == b.nodes[n := Unclaim(b.nodes[n])]
  {
  }

  lemma {:induction false} ReclaimExact(b: State, ns: seq<Id>, now: int)
    requires AllKnown(b) && Rooted(b, ns)
    ensures ReclaimAll(b, ns, now).workers == b.workers && ReclaimAll(b, ns, now).queues.Keys == b.queues.Keys
    ensures Unclaimed(b, ReclaimAll(b, ns, now), ns)
  {
    if ns != [] {
      var init, n := ns[..|ns| - 1], ns[|ns| - 1];
      assert ns == init + [n];
      ReclaimExact(b, init, now);
      ReclaimOneExact(ReclaimAll(b, init, now), n, now);
      hide Reclaim, AllKnown;
    }
  }

  lemma ClaimsAreRooted(b: State, w: Id)
    requires AllKnown(b) && OnceEach(b) && w in b.workers
    ensures Rooted(b, b.workers[w].claimedWork) && Reclaimable(b, b.workers[w].claimedWork)
  {
    ClaimsAreReclaimable(b, w);
    hide Placed, FutureFits, Budgeted, Distinct, AllKnown, NoDup;
  }

  lemma CollectWorkerExact(b: State, w: Id, now: int)
    requires AllKnown(b) && ClaimsKnown(b) && OnceEach(b)
    requires w in b.workers && Stale(b.workers[w], now)
    ensures var r := CollectWorker(b, w, now);
      && r.future == b.future && r.created == b.created && r.instances == b.instances
      && r.queues.Keys == b.queues.Keys && r.workers == b.workers[w := Retired(b.workers[w])]
      && Unclaimed(b, r, b.workers[w].claimedWork)
  {
    hide OnceEach;
    ClaimsAreRooted(b, w);
    ReclaimExact(b, b.workers[w].claimedWork, now);
    ReclaimEffect(b, b.workers[w].claimedWork, now);
    hide ReclaimAll, Rooted, SameWorkers, AllKnown, Unclaimed, Reclaimable;
    UnclaimedNodes(b, ReclaimAll(b, b.workers[w].claimedWork, now), CollectWorker(b, w, now), b.workers[w].claimedWork);
  }

  lemma UnclaimedNodes(b: State, c: State, d: State, ns: seq<Id>)
    requires Unclaimed(b, c, ns) && d.nodes == c.nodes
    ensures Unclaimed(b, d, ns)
  {
  }

  // ---------------------------------------------------------------- a whole pass

  ghost predicate WorkersAfter(b: State, r: State, ws: seq<Id>, now: int) {
    r.workers.Keys == b.workers.Keys && forall w | w in b.workers ::
      r.workers[w] == if w in ws && Stale(b.workers[w], now) then Retired(b.workers[w]) else b.workers[w]
  }

  ghost predicate NodesAfter(b: State, r: State, ws: seq<Id>, now: int) {
    r.nodes.Keys == b.nodes.Keys && forall n | n in b.nodes ::
      r.nodes[n] == if Orphaned(b, n, ws, now) then Unclaim(b.nodes[n]) else b.nodes[n]
  }

  lemma WorkersStep(b: State, c: State, r: State, ws: seq<Id>, w: Id, now: int)
    requires WorkersAfter(b, c, ws, now) && w !in ws && w in b.workers && Stale(b.workers[w], now)
    requires r.workers == c.workers[w := Retired(c.workers[w])]
    ensures WorkersAfter(b, r, ws + [w], now)
  {
  }

  lemma WorkersSkip(b: State, c: State, ws: seq<Id>, w: Id, now: int)
    requires WorkersAfter(b, c, ws, now) && !(w in b.workers && Stale(b.workers[w], now))
    ensures WorkersAfter(b, c, ws + [w], now)
  {
  }

  lemma NodesStep(b: State, c: State, r: State, ws: seq<Id>, w: Id, now: int)
    requires Leased(b) && NodesAfter(b, c, ws, now) && w !in ws && w in b.workers && Stale(b.workers[w], now)
    requires Unclaimed(c, r, b.workers[w].claimedWork)
    ensures NodesAfter(b, r, ws + [w], now)
  {
    forall n | n in b.nodes
      ensures r.nodes[n] == if Orphaned(b, n, ws + [w], now) then Unclaim(b.nodes[n]) else b.nodes[n]
    {
      ClaimedBy(b, w, n);
    }
  }

  lemma NodesSkip(b: State, c: State, ws: seq<Id>, w: Id, now: int)
    requires NodesAfter(b, c, ws, now) && !(w in b.workers && Stale(b.workers[w], now))
    ensures NodesAfter(b, c, ws + [w], now)
  {
  }

  /**
   * After a pass over the listed workers: the claims of the dead ones are unclaimed, the dead ones are retired with
   * nothing in hand, everyone else, their cached queues, the future heap and all other nodes are untouched.
   */
  lemma {:induction false} CollectionIsExact(b: State, ws: seq<Id>, now: int)
    requires AllKnown(b) && ClaimsKnown(b) && OnceEach(b) && NoDup(ws)
    ensures var r := CollectAll(b, ws, now);
      && r.future == b.future && r.created == b.created && r.instances == b.instances
      && r.queues.Keys == b.queues.Keys
      && WorkersAfter(b, r, ws, now) && NodesAfter(b, r, ws, now)
  {
    if ws == [] {
      hide OnceEach;
    } else {
      hide OnceEach, ClaimsKnown, CollectWorker, AllKnown, NodesAfter;
      var init, w := ws[..|ws| - 1], ws[|ws| - 1];
      assert ws == init + [w];
      CollectionIsExact(b, init, now);
      CollectAllKeepsOnce(b, init, now);
      var c := CollectAll(b, init, now);
      if w in b.workers && Stale(b.workers[w], now) {
        assert c.workers[w] == b.workers[w];
        hide WorkersAfter;
        CollectWorkerExact(c, w, now);
        WorkersStep(b, c, CollectWorker(c, w, now), init, w, now);
        LeasedPart(b);
        NodesStep(b, c, CollectWorker(c, w, now), init, w, now);
      } else {
        assert w in c.workers ==> c.workers[w].lastPing == b.workers[w].lastPing;
        hide WorkersAfter;
        SkipWorker(c, w, now);
        WorkersSkip(b, c, init, w, now);
        NodesSkip(b, c, init, w, now);
      }
    }
  }

  lemma LeasedPart(b: State)
    requires AllKnown(b) && OnceEach(b)
    ensures Leased(b)
  {
  }

  lemma SkipWorker(b: State, w: Id, now: int)
    requires AllKnown(b) && ClaimsKnown(b) && !(w in b.workers && Stale(b.workers[w], now))
    ensures CollectWorker(b, w, now) == b
  {
  }

  lemma OrphanedNow(b: State, c: State, ws: seq<Id>, w: Id, n: Id, now: int)
    requires Leased(b) && n in b.nodes && w !in ws
    requires w in b.workers && Stale(b.workers[w], now)
    ensures One(Orphaned(b, n, ws + [w], now)) == One(Orphaned(b, n, ws, now)) + One(n in b.workers[w].claimedWork)
  {
  }

  lemma CollectWorkerReady(b: State, w: Id, now: int, n: Id)
    requires AllKnown(b) && ClaimsKnown(b) && OnceEach(b) && n in b.nodes
    requires w in b.workers && Stale(b.workers[w], now)
    ensures ReadyCount(CollectWorker(b, w, now), n) == ReadyCount(b, n) + One(n in b.workers[w].claimedWork)
  {
    hide OnceEach;
    var ns := b.workers[w].claimedWork;
    ClaimsAreRooted(b, w);
    LeasedPart(b);
    ClaimedBy(b, w, n);
    CollectCounts(b, ns, now, n);
    ReclaimAllKeepsWorkers(b, ns, now);
    hide Leased, Rooted, Reclaimable, NoDup, ReclaimAll, AllKnown, ClaimsKnown, SourcesDone, DelayedCount, SameWorkers;
    RetireReady(ReclaimAll(b, ns, now), w, n);
  }

  lemma RetireReady(b: State, w: Id, n: Id)
    requires AllKnown(b) && n in b.nodes && w in b.workers
    ensures ReadyCount(Retire(b, w), n) == ReadyCount(b, n)
  {
  }

  /** Each orphaned node is put back into its own queue exactly once, and nothing else is queued. */
  lemma {:induction false} CollectionConservesWork(b: State, ws: seq<Id>, now: int, n: Id)
    requires AllKnown(b) && ClaimsKnown(b) && OnceEach(b) && NoDup(ws) && n in b.nodes
    ensures ReadyCount(CollectAll(b, ws, now), n) == ReadyCount(b, n) + One(Orphaned(b, n, ws, now))
  {
    if ws == [] {
      hide OnceEach;
    } else {
      hide OnceEach, ClaimsKnown, CollectWorker, AllKnown, NodesAfter, ReadyCount;
      var init, w := ws[..|ws| - 1], ws[|ws| - 1];
      assert ws == init + [w];
      CollectionConservesWork(b, init, now, n);
      CollectionIsExact(b, init, now);
      CollectAllKeepsOnce(b, init, now);
      var c := CollectAll(b, init, now);
      if w in b.workers && Stale(b.workers[w], now) {
        assert c.workers[w] == b.workers[w];
        LeasedPart(b);
        OrphanedNow(b, c, init, w, n, now);
        hide WorkersAfter, Orphaned, Leased;
        CollectWorkerReady(c, w, now, n);
      } else {
        assert w in c.workers ==> c.workers[w].lastPing == b.workers[w].lastPing;
        hide WorkersAfter;
        SkipWorker(c, w, now);
        assert Orphaned(b, n, ws, now) == Orphaned(b, n, init, now);
      }
    }
  }

  /** Every dead worker is already retired. */
  ghost predicate Swept(b: State, now: int) {
    forall w | w in b.workers && Stale(b.workers[w], now) :: b.workers[w] == Retired(b.workers[w])
  }

  lemma {:induction false} SweptIsStable(b: State, ws: seq<Id>, now: int)
    requires AllKnown(b) && ClaimsKnown(b) && Swept(b, now)
    ensures CollectAll(b, ws, now) == b
  {
    if ws != [] {
      SweptIsStable(b, ws[..|ws| - 1], now);
      var w := ws[|ws| - 1];
      if w in b.workers && Stale(b.workers[w], now) {
        assert b.workers[w].claimedWork == [];
        assert Retire(b, w).workers == b.workers;
      }
    }
  }

  /** A second pass at the same time, in any order, changes nothing. */
  lemma CollectionIsIdempotent(b: State, ws: seq<Id>, vs: seq<Id>, now: int)
    requires AllKnown(b) && ClaimsKnown(b) && OnceEach(b) && NoDup(ws) && forall w :: w in ws <==> w in b.workers
    ensures CollectAll(CollectAll(b, ws, now), vs, now) == CollectAll(b, ws, now)
  {
    CollectionIsExact(b, ws, now);
    var r := CollectAll(b, ws, now);
    hide OnceEach, AllKnown, ClaimsKnown, CollectAll, NodesAfter;
    assert Swept(r, now);
    SweptIsStable(r, vs, now);
  }

  // ---------------------------------------------------------------- the order of the visits

  /** Queues keep their taints. */
  ghost predicate TaintsStay(b: State, c: State) {
    forall q | q in b.queues :: q in c.queues && c.queues[q].taint == b.queues[q].taint
  }

  lemma ReclaimTaints(b: State, n: Id, now: int)
    requires AllKnown(b) && n in b.nodes
    ensures TaintsStay(b, Reclaim(b, n, now))
  {
  }

  lemma {:induction false} ReclaimAllTaints(b: State, ns: seq<Id>, now: int)
    requires AllKnown(b) && forall n | n in ns :: n in b.nodes
    ensures TaintsStay(b, ReclaimAll(b, ns, now))
  {
    if ns != [] {
      hide Reclaim, AllKnown;
      ReclaimAllTaints(b, ns[..|ns| - 1], now);
      ReclaimTaints(ReclaimAll(b, ns[..|ns| - 1], now), ns[|ns| - 1], now);
    }
  }

  lemma {:induction false} CollectAllTaints(b: State, ws: seq<Id>, now: int)
    requires AllKnown(b) && ClaimsKnown(b)
    ensures TaintsStay(b, CollectAll(b, ws, now))
  {
    if ws != [] {
      hide ReclaimAll, AllKnown;
      CollectAllTaints(b, ws[..|ws| - 1], now);
      var c, w := CollectAll(b, ws[..|ws| - 1], now), ws[|ws| - 1];
      if w in c.workers && Stale(c.workers[w], now) {
        ReclaimAllTaints(c, c.workers[w].claimedWork, now);
      }
      hide ClaimsKnown;
    }
  }

  /** The jobs of a queue are what its nodes' counts say. */
  lemma QueueIsItsCounts(b: State, q: string, j: Job)
    requires AllKnown(b) && JobsFit(b) && q in b.queues
    ensures b.queues[q].jobs[j] ==
      if j.node in b.nodes && b.nodes[j.node].decl.queueName == q && j.priority == Order(b, j.node)
      then ReadyCount(b, j.node) else 0
  {
  }

  lemma SameCountsSameQueues(b: State, c: State)
    requires AllKnown(b) && AllKnown(c) && JobsFit(b) && JobsFit(c) && b.nodes == c.nodes && b.instances == c.instances
    requires b.queues.Keys == c.queues.Keys && TaintsStay(b, c)
    requires forall n | n in b.nodes :: ReadyCount(b, n) == ReadyCount(c, n)
    ensures b.queues == c.queues
  {
    hide JobsFit, AllKnown, ReadyCount;
    forall q | q in b.queues
      ensures b.queues[q] == c.queues[q]
    {
      forall j
        ensures b.queues[q].jobs[j] == c.queues[q].jobs[j]
      {
        QueueIsItsCounts(b, q, j);
        QueueIsItsCounts(c, q, j);
      }
    }
  }

  lemma SameVisits(b: State, ws: seq<Id>, vs: seq<Id>, now: int)
    requires AllKnown(b) && ClaimsKnown(b) && OnceEach(b) && NoDup(ws) && NoDup(vs)
    requires forall w :: w in ws <==> w in vs
    ensures var r, t := CollectAll(b, ws, now), CollectAll(b, vs, now);
      && r.nodes == t.nodes && r.workers == t.workers && r.future == t.future && r.queues.Keys == t.queues.Keys
      && r.instances == t.instances && r.created == t.created && r.queues.Keys == b.queues.Keys
      && forall n | n in b.nodes :: ReadyCount(r, n) == ReadyCount(t, n)
  {
    hide OnceEach, AllKnown, ClaimsKnown, CollectAll, ReadyCount;
    CollectionIsExact(b, ws, now);
    CollectionIsExact(b, vs, now);
    forall n | n in b.nodes
      ensures ReadyCount(CollectAll(b, ws, now), n) == ReadyCount(CollectAll(b, vs, now), n)
    {
      CollectionConservesWork(b, ws, now, n);
      CollectionConservesWork(b, vs, now, n);
      assert Orphaned(b, n, ws, now) == Orphaned(b, n, vs, now);
    }
    assert forall m | m in b.nodes :: Orphaned(b, m, ws, now) == Orphaned(b, m, vs, now);
    hide Orphaned, Retired, NoDup;
  }

  lemma SoundParts(b: State)
    requires Sound(b)
    ensures AllKnown(b) && ClaimsKnown(b) && JobsFit(b)
  {
    SoundBasics(b);
  }

  /** The order in which the map of workers is ranged over does not matter: the state after the pass is the same. */
  lemma CollectionIsOrderFree(b: State, ws: seq<Id>, vs: seq<Id>, now: int)
    requires Sound(b) && AllKnown(b) && ClaimsKnown(b) && OnceEach(b) && NoDup(ws) && NoDup(vs)
    requires forall w :: w in ws <==> w in vs
    ensures CollectAll(b, ws, now) == CollectAll(b, vs, now)
  {
    hide Sound, OnceEach, AllKnown, ClaimsKnown, CollectAll, ReadyCount, NoDup, JobsFit, SameShape;
    var r, t := CollectAll(b, ws, now), CollectAll(b, vs, now);
    SameVisits(b, ws, vs, now);
    CollectAllKeepsSound(b, ws, now);
    CollectAllKeepsSound(b, vs, now);
    SoundParts(r);
    SoundParts(t);
    CollectAllTaints(b, ws, now);
    CollectAllTaints(b, vs, now);
    SameCountsSameQueues(r, t);
  }
}
