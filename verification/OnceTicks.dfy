/** Failing, garbage collection and draining keep every node in exactly one place. */
module OnceTicks {
  import opened Basics
  import opened Retry
  import opened Inspection
  import opened Model
  import opened Placement
  import opened Once
  import opened OnceSteps

  // ---------------------------------------------------------------- SubmitFailure

  ghost predicate Retries(node: Node, jitter: real) {
    node.policy.Some? && Wait(node.policy.value, jitter) != -1
  }

  /** The failed node: released, one failure more, and with a retry time if its policy grants one. */
  function FailedNode(node: Node, traceback: string, jitter: real, now: int): Node {
    var f := Unclaim(node).(failures := node.failures + [traceback]);
    if node.policy.None? then f
    else if Wait(node.policy.value, jitter) == -1 then f.(policy := Some(Advance(node.policy.value)))
    else f.(policy := Some(Advance(node.policy.value)), nextRetry := now + Wait(node.policy.value, jitter))
  }

  /** The whole effect of a failure. */
  ghost predicate Failed(b: State, r: State, w: Id, n: Id, traceback: string, jitter: real, now: int)
    requires n in b.nodes && w in b.workers
  {
    var node := b.nodes[n];
    && r.queues == b.queues && r.instances == b.instances && r.created == b.created
    && r.workers == b.workers[w := b.workers[w].(claimedWork := Without(b.workers[w].claimedWork, n))]
    && r.nodes == b.nodes[n := FailedNode(node, traceback, jitter, now)]
    && r.future == if Retries(node, jitter) then b.future + multiset{Job(n, r.nodes[n].nextRetry)} else b.future
  }

  lemma ReleaseShape(b: State, w: Id, n: Id)
    requires Holds(b, w, n)
    ensures ReleaseWorkerLock(b, n)
         == b.(nodes := b.nodes[n := Unclaim(b.nodes[n])],
               workers := b.workers[w := b.workers[w].(claimedWork := Without(b.workers[w].claimedWork, n))])
  {
  }

  /** A granted retry lies in the future, so the node goes to the future heap. */
  lemma FailIs(b: State, w: Id, n: Id, traceback: string, jitter: real, now: int)
    requires AllKnown(b) && Holds(b, w, n) && WithinBudget(b.nodes[n]) && Jitter(jitter) && now >= 0
    ensures Failed(b, ExecutionDidFail(b, n, traceback, jitter, now), w, n, traceback, jitter, now)
  {
    ReleaseShape(b, w, n);
    var node := b.nodes[n];
    if node.policy.Some? {
      WaitGranted(node.policy.value, jitter);
    }
    hide ReleaseWorkerLock, Wait, Advance, Usable;
    var c := RecordFailure(ReleaseWorkerLock(b, n), n, traceback);
    assert c.nodes[n] == Unclaim(node).(failures := node.failures + [traceback]);
  }

  lemma FailBudget(node: Node, traceback: string, jitter: real, now: int)
    requires WithinBudget(node) && !Exhausted(node) && Jitter(jitter) && now >= 0
    ensures var f := FailedNode(node, traceback, jitter, now);
      && WithinBudget(f) && Exhausted(f) == !Retries(node, jitter)
      && (Retries(node, jitter) ==> f.nextRetry >= now + 1000)
  {
    if node.policy.Some? {
      WaitGranted(node.policy.value, jitter);
    }
    hide Wait, Usable;
  }

  lemma FailKeepsFutureFits(
      b: State, r: State, w: Id, n: Id, traceback: string, jitter: real, now: int)
    requires n in b.nodes && w in b.workers && Failed(b, r, w, n, traceback, jitter, now)
    requires FutureFits(b) && b.nodes[n].nextRetry == -1
    requires Retries(b.nodes[n], jitter) ==> FailedNode(b.nodes[n], traceback, jitter, now).nextRetry > -1
    ensures FutureFits(r)
  {
  }

  lemma FailTally(b: State, r: State, w: Id, n: Id, traceback: string, jitter: real, now: int, m: Id)
    requires AllKnown(b) && AllKnown(r) && n in b.nodes && w in b.workers
    requires Failed(b, r, w, n, traceback, jitter, now) && m in b.nodes
    requires Placed(b) && FutureFits(b) && b.nodes[n].dequeueWorker.Some?
    requires Exhausted(FailedNode(b.nodes[n], traceback, jitter, now)) == !Retries(b.nodes[n], jitter)
    ensures Tally(r, m) == 1
  {
    hide ReadyCount, SourcesDone, Placed, FutureFits, Wait, Advance, AllKnown, Budget;
    PlacedAt(b, m);
    SameQueuesSameReady(b, r, m);
    SameHistorySources(b, r, m);
    if m == n {
      HeldFacts(b, n);
      NotDelayed(b, n, r.nodes[n].nextRetry);
    }
  }

  lemma FailKeepsRest(b: State, r: State, w: Id, n: Id, traceback: string, jitter: real, now: int)
    requires Holds(b, w, n) && Failed(b, r, w, n, traceback, jitter, now)
    requires Leased(b) && Budgeted(b) && Distinct(b)
    requires WithinBudget(FailedNode(b.nodes[n], traceback, jitter, now))
    ensures Leased(r) && Budgeted(r) && Distinct(r)
  {
    hide Wait, Advance, WithinBudget, NoDup;
    assert Budgeted(r) && Distinct(r);
    hide Budgeted, Distinct;
    ReleaseKeepsLeased(b, r, w, n);
    hide Leased;
  }

  lemma FailKeepsOnce(b: State, w: Id, n: Id, traceback: string, jitter: real, now: int)
    requires AllKnown(b) && OnceEach(b) && Holds(b, w, n) && Jitter(jitter) && now >= 0
    ensures OnceEach(ExecutionDidFail(b, n, traceback, jitter, now))
    ensures Failed(b, ExecutionDidFail(b, n, traceback, jitter, now), w, n, traceback, jitter, now)
  {
    assert WithinBudget(b.nodes[n]);
    hide Placed, FutureFits, Leased, Budgeted, Distinct, ExecutionDidFail, Failed, Tally, FailedNode, Retries,
      WithinBudget, Exhausted, SourcesDone, ReadyCount, DelayedCount;
    HeldFacts(b, n);
    FailIs(b, w, n, traceback, jitter, now);
    FailBudget(b.nodes[n], traceback, jitter, now);
    var r := ExecutionDidFail(b, n, traceback, jitter, now);
    FailKeepsFutureFits(b, r, w, n, traceback, jitter, now);
    FailKeepsRest(b, r, w, n, traceback, jitter, now);
    forall m | m in b.nodes
      ensures Tally(r, m) == 1
    {
      FailTally(b, r, w, n, traceback, jitter, now, m);
    }
    AssemblePlaced(r);
  }

  // ---------------------------------------------------------------- garbage collection

  lemma ClaimsAreReclaimable(b: State, w: Id)
    requires AllKnown(b) && Placed(b) && FutureFits(b) && Leased(b) && w in b.workers
    ensures Reclaimable(b, b.workers[w].claimedWork)
  {
  }

  lemma CollectCounts(b: State, ns: seq<Id>, now: int, m: Id)
    requires AllKnown(b) && Reclaimable(b, ns) && NoDup(ns) && m in b.nodes
    ensures var c := ReclaimAll(b, ns, now);
      && c.nodes[m] == (if m in ns then Unclaim(b.nodes[m]) else b.nodes[m])
      && ReadyCount(c, m) == ReadyCount(b, m) + One(m in ns)
      && DelayedCount(c, m) == DelayedCount(b, m) && SourcesDone(c, m) == SourcesDone(b, m)
  {
    ReclaimEffect(b, ns, now);
    ReclaimCount(b, ns, now, m);
    NoDupCount(ns, m);
    var c := ReclaimAll(b, ns, now);
    hide ReclaimAll, ReadyCount, NoDup, SameWorkers;
    SameHistorySources(b, c, m);
    hide SourcesDone;
  }

  lemma ClaimedBy(b: State, w: Id, m: Id)
    requires Leased(b) && w in b.workers && m in b.nodes
    ensures m in b.workers[w].claimedWork <==> b.nodes[m].dequeueWorker == Some(w)
    ensures NoDup(b.workers[w].claimedWork)
  {
  }

  lemma CollectTally(b: State, w: Id, now: int, m: Id)
    requires AllKnown(b) && Leased(b) && w in b.workers && m in b.nodes && Tally(b, m) == 1
    requires Reclaimable(b, b.workers[w].claimedWork)
    ensures Tally(ReclaimAll(b, b.workers[w].claimedWork, now), m) == 1
  {
    hide Leased, NoDup, AllKnown, Reclaimable, ReclaimAll, ReadyCount, DelayedCount, SourcesDone;
    ClaimedBy(b, w, m);
    CollectCounts(b, b.workers[w].claimedWork, now, m);
  }

  /** Garbage collection returns each claim of the worker to its own queue, once, and fences the worker. */
  ghost predicate Collected(b: State, r: State, w: Id)
    requires w in b.workers
  {
    && r.created == b.created && r.instances == b.instances && r.future == b.future
    && Unclaimed(b, r, b.workers[w].claimedWork)
    && b.queues.Keys <= r.queues.Keys && r.workers.Keys == b.workers.Keys
    && (forall v | v in b.workers && v != w ::
          r.workers[v] == b.workers[v].(allowedQueues := r.workers[v].allowedQueues))
    && r.workers[w] == b.workers[w].(allowedQueues := r.workers[w].allowedQueues, claimedWork := [],
                                       invalidated := true)
  }

  lemma CollectIs(b: State, w: Id, now: int)
    requires AllKnown(b) && ClaimsKnown(b) && w in b.workers && Stale(b.workers[w], now)
    requires Reclaimable(b, b.workers[w].claimedWork)
    ensures Collected(b, CollectWorker(b, w, now), w)
  {
    ReclaimEffect(b, b.workers[w].claimedWork, now);
    hide ReclaimAll;
  }

  lemma CollectKeepsLeased(b: State, r: State, w: Id)
    requires w in b.workers && Collected(b, r, w) && Leased(b)
    ensures Leased(r)
  {
    assert NoDup(r.workers[w].claimedWork);
    hide NoDup;
  }

  lemma CollectKeepsFutureFits(b: State, r: State, w: Id)
    requires w in b.workers && Collected(b, r, w) && FutureFits(b)
    ensures FutureFits(r)
  {
  }

  lemma CollectKeepsHistory(b: State, r: State, w: Id)
    requires w in b.workers && Collected(b, r, w)
    ensures SameHistory(b, r)
  {
  }

  lemma RetireTally(b: State, w: Id, m: Id)
    requires AllKnown(b) && w in b.workers && m in b.nodes
    ensures Tally(Retire(b, w), m) == Tally(b, m)
  {
  }

  lemma CollectWorkerKeepsOnce(b: State, w: Id, now: int)
    requires AllKnown(b) && ClaimsKnown(b) && OnceEach(b)
    ensures OnceEach(CollectWorker(b, w, now))
  {
    if w in b.workers && Stale(b.workers[w], now) {
      hide Placed, FutureFits, Leased, Budgeted, Distinct, Collected, Tally, ReclaimAll, SameHistory;
      ClaimsAreReclaimable(b, w);
      CollectIs(b, w, now);
      var r := CollectWorker(b, w, now);
      CollectKeepsLeased(b, r, w);
      CollectKeepsFutureFits(b, r, w);
      CollectKeepsHistory(b, r, w);
      BudgetedStable(b, r);
      var ns := b.workers[w].claimedWork;
      ReclaimAllKeepsWorkers(b, ns, now);
      var c := ReclaimAll(b, ns, now);
      forall m | m in r.nodes
        ensures Tally(r, m) == 1
      {
        CollectTally(b, w, now, m);
        RetireTally(c, w, m);
      }
      AssemblePlaced(r);
    }
  }

  lemma {:induction false} CollectAllKeepsOnce(b: State, ws: seq<Id>, now: int)
    requires AllKnown(b) && ClaimsKnown(b) && OnceEach(b)
    ensures OnceEach(CollectAll(b, ws, now))
  {
    hide OnceEach, ClaimsKnown, CollectWorker;
    if ws != [] {
      CollectAllKeepsOnce(b, ws[..|ws| - 1], now);
      CollectWorkerKeepsOnce(CollectAll(b, ws[..|ws| - 1], now), ws[|ws| - 1], now);
    }
  }

  // ---------------------------------------------------------------- draining the future heap

  /** A due job's node never has to wait again: the loop cannot re-enter the future heap it has locked. */
  lemma DrainNeverReenters(b: State, job: Job, now: int)
    requires AllKnown(b) && OnceEach(b) && job in b.future && job.priority <= now
    ensures job.node in b.nodes && !MustWait(b.nodes[job.node], now)
  {
  }

  /** The whole effect of moving one due job. */
  lemma DrainOneIs(b: State, job: Job, now: int)
    requires AllKnown(b) && job.node in b.nodes && !MustWait(b.nodes[job.node], now)
    ensures var r := DrainOne(b, job, now);
      && r.future == b.future - multiset{job} && r.created == b.created && r.instances == b.instances
      && SameWorkers(b, r) && b.queues.Keys <= r.queues.Keys
      && r.nodes == b.nodes[job.node := b.nodes[job.node].(nextRetry := -1)]
  {
    ReadyEffect(Undelay(b, job), job.node, now);
    hide EnqueueNode;
  }

  lemma DrainOneReady(b: State, job: Job, now: int, m: Id)
    requires AllKnown(b) && job.node in b.nodes && !MustWait(b.nodes[job.node], now) && m in b.nodes
    ensures ReadyCount(DrainOne(b, job, now), m) == ReadyCount(b, m) + One(m == job.node)
  {
  }

  lemma DrainDelayed(b: State, job: Job, now: int, m: Id)
    requires AllKnown(b) && Placed(b) && FutureFits(b) && job in b.future && job.node in b.nodes && m in b.nodes
    requires !MustWait(b.nodes[job.node], now)
    ensures DelayedCount(DrainOne(b, job, now), m) + One(m == job.node) == DelayedCount(b, m)
  {
  }

  lemma MovedTally(b: State, r: State, n: Id, m: Id)
    requires AllKnown(b) && AllKnown(r) && n in b.nodes && m in b.nodes && Tally(b, m) == 1
    requires r.nodes == b.nodes[n := b.nodes[n].(nextRetry := -1)] && SourcesDone(r, m) == SourcesDone(b, m)
    requires ReadyCount(r, m) == ReadyCount(b, m) + One(m == n)
    requires DelayedCount(r, m) + One(m == n) == DelayedCount(b, m)
    ensures Tally(r, m) == 1
  {
  }

  lemma DrainTally(b: State, job: Job, now: int, m: Id)
    requires AllKnown(b) && Placed(b) && FutureFits(b) && job in b.future && job.node in b.nodes && m in b.nodes
    requires !MustWait(b.nodes[job.node], now)
    ensures Tally(DrainOne(b, job, now), m) == 1
  {
    hide Placed, FutureFits, AllKnown, DrainOne, MustWait, ReadyCount, DelayedCount, SourcesDone, SameWorkers, Tally;
    PlacedAt(b, m);
    DrainOneIs(b, job, now);
    DrainOneReady(b, job, now, m);
    DrainDelayed(b, job, now, m);
    SameHistorySources(b, DrainOne(b, job, now), m);
    MovedTally(b, DrainOne(b, job, now), job.node, m);
  }

  lemma DrainKeepsFutureFits(b: State, job: Job, now: int)
    requires AllKnown(b) && Placed(b) && FutureFits(b) && job in b.future && job.node in b.nodes
    requires !MustWait(b.nodes[job.node], now)
    ensures FutureFits(DrainOne(b, job, now))
  {
    hide Placed, AllKnown, DrainOne, MustWait, ReadyCount, SourcesDone, SameWorkers, Exhausted;
    DelayedFacts(b, job);
    DrainOneIs(b, job, now);
  }

  lemma DrainKeepsLeased(b: State, job: Job, now: int)
    requires AllKnown(b) && Leased(b) && job.node in b.nodes && !MustWait(b.nodes[job.node], now)
    ensures Leased(DrainOne(b, job, now))
  {
    hide DrainOne, AllKnown, MustWait, NoDup;
    DrainOneIs(b, job, now);
  }

  lemma DrainKeepsHistory(b: State, job: Job, now: int)
    requires AllKnown(b) && job.node in b.nodes && !MustWait(b.nodes[job.node], now)
    ensures SameHistory(b, DrainOne(b, job, now))
  {
  }

  lemma DrainOneKeepsOnce(b: State, job: Job, now: int)
    requires AllKnown(b) && OnceEach(b) && job in b.future && job.priority <= now
    ensures job.node in b.nodes && OnceEach(DrainOne(b, job, now))
  {
    DrainNeverReenters(b, job, now);
    hide Placed, FutureFits, Leased, Budgeted, Distinct, DrainOne, Tally, MustWait, SameHistory;
    DrainKeepsFutureFits(b, job, now);
    DrainKeepsLeased(b, job, now);
    DrainKeepsHistory(b, job, now);
    var r := DrainOne(b, job, now);
    BudgetedStable(b, r);
    forall m | m in r.nodes
      ensures Tally(r, m) == 1
    {
      DrainTally(b, job, now, m);
    }
    AssemblePlaced(r);
  }

  lemma {:induction false} DrainAllKeepsOnce(b: State, jobs: seq<Job>, now: int)
    requires AllKnown(b) && OnceEach(b) && forall j | j in jobs :: j.node in b.nodes
    requires DrainRounds(b, jobs, now)
    ensures OnceEach(DrainAll(b, jobs, now))
  {
    hide OnceEach, DrainOne, MustWait;
    if jobs != [] {
      DrainAllKeepsOnce(b, jobs[..|jobs| - 1], now);
      DrainOneKeepsOnce(DrainAll(b, jobs[..|jobs| - 1], now), jobs[|jobs| - 1], now);
    }
  }
}
