/** Creating, claiming, resolving and failing keep every node in exactly one place. */
module OnceSteps {
  import opened Basics
  import opened Retry
  import opened Inspection
  import opened Model
  import opened Safety
  import opened SafetyOfSteps
  import opened Placement
  import opened Once

  // ---------------------------------------------------------------- NewNode

  ghost predicate MayInsertOnce(b: State, n: Id, decl: Decl, policy: Option<Policy>) {
    && MayInsert(b, n, decl) && NoDup(decl.sources)
    && (policy.Some? ==> Usable(policy.value) && policy.value.currentAttempt == 0)
  }

  /** The inserted node is nowhere: not queued, not delayed, not held. */
  lemma FreshIsNowhere(b: State, n: Id, decl: Decl, policy: Option<Policy>)
    requires MayInsert(b, n, decl) && JobsFit(b) && FutureFits(b)
    ensures ReadyCount(InsertNode(b, n, decl, policy), n) == 0 && DelayedCount(InsertNode(b, n, decl, policy), n) == 0
  {
  }

  lemma InsertKeepsTally(b: State, n: Id, decl: Decl, policy: Option<Policy>, m: Id)
    requires MayInsert(b, n, decl) && m in b.nodes && SourcesKnown(b)
    ensures Tally(InsertNode(b, n, decl, policy), m) == Tally(b, m)
  {
  }

  lemma InsertKeepsFutureFits(b: State, n: Id, decl: Decl, policy: Option<Policy>)
    requires MayInsert(b, n, decl) && FutureFits(b)
    ensures FutureFits(InsertNode(b, n, decl, policy))
  {
    InsertKeepsOthers(b, n, decl, policy);
    var c := InsertNode(b, n, decl, policy);
    assert c.future == b.future;
    hide InsertNode;
  }

  lemma InsertKeepsLeased(b: State, n: Id, decl: Decl, policy: Option<Policy>)
    requires MayInsert(b, n, decl) && Leased(b)
    ensures Leased(InsertNode(b, n, decl, policy))
  {
    InsertKeepsOthers(b, n, decl, policy);
    var c := InsertNode(b, n, decl, policy);
    assert c.workers == b.workers && c.queues == b.queues;
    hide InsertNode, NoDup;
  }

  lemma InsertKeepsBudgets(b: State, n: Id, decl: Decl, policy: Option<Policy>)
    requires MayInsertOnce(b, n, decl, policy) && Budgeted(b) && Distinct(b)
    ensures Budgeted(InsertNode(b, n, decl, policy)) && Distinct(InsertNode(b, n, decl, policy))
  {
  }

  /** Entering its queue moves the node from nowhere to ready, or from waiting's end to ready. */
  lemma EnqueueReadyKeeps(b: State, n: Id, now: int)
    requires AllKnown(b) && n in b.nodes && b.nodes[n].nextRetry == -1
    requires FutureFits(b) && Leased(b) && Budgeted(b) && Distinct(b)
    ensures var c := EnqueueNode(b, n, now);
      && FutureFits(c) && Leased(c) && Budgeted(c) && Distinct(c)
      && c.nodes == b.nodes && c.future == b.future && c.instances == b.instances
  {
    ReadyEffect(b, n, now);
    var c := EnqueueNode(b, n, now);
    assert c.nodes == b.nodes;
    hide EnqueueNode, WithinBudget, NoDup;
    LeasedStable(b, c);
    BudgetedStable(b, c);
  }

  lemma EnqueueReadyTally(b: State, n: Id, now: int, m: Id)
    requires AllKnown(b) && n in b.nodes && b.nodes[n].nextRetry == -1 && m in b.nodes
    ensures Tally(EnqueueNode(b, n, now), m) == Tally(b, m) + One(m == n)
  {
    ReadyEffect(b, n, now);
    ReadyEffectCount(b, n, now, m);
    var c := EnqueueNode(b, n, now);
    assert c.nodes == b.nodes;
    SameNodesSameSources(b, c, m);
    hide EnqueueNode, ReadyCount, SourcesDone, SameWorkers;
  }

  /** n is new: ready, once, if all its sources are completed, and waiting otherwise. */
  ghost predicate Appeared(b: State, r: State, n: Id)
    requires AllKnown(r) && n in r.nodes
  {
    && n !in b.nodes && !r.nodes[n].completed && r.nodes[n].dequeueWorker.None? && r.nodes[n].nextRetry == -1
    && ReadyCount(r, n) == One(SourcesDone(r, n)) && r.future == b.future
  }

  lemma InsertedNode(b: State, n: Id, decl: Decl, policy: Option<Policy>)
    requires MayInsert(b, n, decl)
    ensures var c := InsertNode(b, n, decl, policy);
      && c.future == b.future
      && !c.nodes[n].completed && c.nodes[n].dequeueWorker.None? && c.nodes[n].nextRetry == -1
  {
    hide AddBackLinks;
  }

  lemma NewNodeAppears(b: State, n: Id, decl: Decl, policy: Option<Policy>, now: int)
    requires MayInsertOnce(b, n, decl, policy) && JobsFit(b) && SourcesKnown(b) && FutureFits(b)
    ensures Appeared(b, NewNode(b, n, decl, policy, now), n)
  {
    hide InsertNode, EnqueueNode, ReadyCount, SourcesDone, JobsFit, FutureFits, DelayedCount, SourcesKnown;
    var c := InsertNode(b, n, decl, policy);
    FreshIsNowhere(b, n, decl, policy);
    InsertedNode(b, n, decl, policy);
    if SourcesDone(c, n) {
      ReadyEffect(c, n, now);
      ReadyEffectCount(c, n, now, n);
      SameNodesSameSources(c, EnqueueNode(c, n, now), n);
    }
  }

  /** Inserting keeps all parts of the invariant but one: the new node is nowhere unless it waits. */
  lemma InsertedTally(b: State, n: Id, decl: Decl, policy: Option<Policy>)
    requires MayInsert(b, n, decl) && JobsFit(b) && FutureFits(b) && SourcesKnown(b) && Placed(b)
    ensures var c := InsertNode(b, n, decl, policy);
      && Tally(c, n) == One(!SourcesDone(c, n)) && forall m | m in b.nodes :: Tally(c, m) == 1
  {
    FreshIsNowhere(b, n, decl, policy);
    InsertKeepsOthers(b, n, decl, policy);
    var c := InsertNode(b, n, decl, policy);
    assert Tally(c, n) == One(!SourcesDone(c, n));
    hide InsertNode, ReadyCount, SourcesDone, JobsFit, DelayedCount, FutureFits;
    forall m | m in b.nodes
      ensures Tally(c, m) == 1
    {
      InsertKeepsTally(b, n, decl, policy, m);
    }
  }

  lemma EnqueuedTallies(b: State, n: Id, now: int)
    requires AllKnown(b) && n in b.nodes && b.nodes[n].nextRetry == -1 && Tally(b, n) == 0
    requires forall m | m in b.nodes && m != n :: Tally(b, m) == 1
    ensures Placed(EnqueueNode(b, n, now))
  {
    hide Tally;
    forall m | m in b.nodes
      ensures Tally(EnqueueNode(b, n, now), m) == 1
    {
      EnqueueReadyTally(b, n, now, m);
    }
    hide EnqueueNode;
  }

  lemma NewNodeKeepsOnce(b: State, n: Id, decl: Decl, policy: Option<Policy>, now: int)
    requires MayInsertOnce(b, n, decl, policy) && JobsFit(b) && SourcesKnown(b) && OnceEach(b)
    ensures OnceEach(NewNode(b, n, decl, policy, now)) && Appeared(b, NewNode(b, n, decl, policy, now), n)
  {
    hide InsertNode, EnqueueNode, Leased, Budgeted, Distinct, JobsFit, FutureFits, SourcesKnown, SourcesDone, Appeared,
      Tally;
    NewNodeAppears(b, n, decl, policy, now);
    InsertedTally(b, n, decl, policy);
    InsertedNode(b, n, decl, policy);
    InsertKeepsFutureFits(b, n, decl, policy);
    InsertKeepsLeased(b, n, decl, policy);
    InsertKeepsBudgets(b, n, decl, policy);
    var c := InsertNode(b, n, decl, policy);
    if SourcesDone(c, n) {
      EnqueueReadyKeeps(c, n, now);
      EnqueuedTallies(c, n, now);
      hide Placed;
    }
  }

  // ---------------------------------------------------------------- PopNextNode

  lemma ClaimNodes(b: State, w: Id, q: string, job: Job, now: int)
    requires w in b.workers && q in b.queues && job.node in b.nodes
    ensures var c := Claim(b, w, q, job, now);
      && c.nodes == b.nodes[job.node := b.nodes[job.node].(dequeueTimestamp := Unix(now), dequeueWorker := Some(w))]
      && c.future == b.future && c.instances == b.instances && c.created == b.created
      && c.queues == b.queues[q := b.queues[q].(jobs := b.queues[q].jobs - multiset{job})]
      && c.workers.Keys == b.workers.Keys
      && forall v | v in b.workers ::
           && c.workers[v].claimedWork == b.workers[v].claimedWork + (if v == w then [job.node] else [])
           && c.workers[v].invalidated == b.workers[v].invalidated
  {
  }

  lemma ClaimKeepsLeased(b: State, w: Id, q: string, job: Job, now: int)
    requires w in b.workers && !b.workers[w].invalidated && q in b.queues && job.node in b.nodes
    requires b.nodes[job.node].decl.queueName == q && b.nodes[job.node].dequeueWorker.None? && Leased(b)
    ensures Leased(Claim(b, w, q, job, now))
  {
  }

  lemma SameHistorySources(b: State, c: State, m: Id)
    requires m in b.nodes && m in c.nodes && c.nodes[m].decl == b.nodes[m].decl
    requires c.nodes.Keys == b.nodes.Keys && forall x | x in b.nodes :: c.nodes[x].completed == b.nodes[x].completed
    ensures SourcesDone(c, m) == SourcesDone(b, m)
  {
  }

  lemma PopReadyCount(b: State, c: State, q: string, job: Job, m: Id)
    requires AllKnown(b) && AllKnown(c) && m in b.nodes && m in c.nodes && job.node in b.nodes
    requires q in b.queues && job in b.queues[q].jobs
    requires b.nodes[job.node].decl.queueName == q && job.priority == Order(b, job.node)
    requires c.queues == b.queues[q := b.queues[q].(jobs := b.queues[q].jobs - multiset{job})]
    requires c.nodes[m].decl == b.nodes[m].decl && c.instances == b.instances
    ensures ReadyCount(c, m) + One(m == job.node) == ReadyCount(b, m)
  {
  }

  lemma ClaimTally(b: State, w: Id, q: string, job: Job, now: int, m: Id)
    requires AllKnown(b) && w in b.workers && q in b.queues && job in b.queues[q].jobs && job.node in b.nodes
    requires b.nodes[job.node].decl.queueName == q && job.priority == Order(b, job.node)
    requires b.nodes[job.node].dequeueWorker.None? && m in b.nodes
    ensures AllKnown(Claim(b, w, q, job, now)) && Tally(Claim(b, w, q, job, now), m) == Tally(b, m)
  {
    ClaimNodes(b, w, q, job, now);
    var c := Claim(b, w, q, job, now);
    hide Claim;
    PopReadyCount(b, c, q, job, m);
    SameHistorySources(b, c, m);
    hide ReadyCount, SourcesDone;
  }

  lemma ClaimKeepsFutureFits(b: State, w: Id, q: string, job: Job, now: int)
    requires w in b.workers && q in b.queues && job.node in b.nodes && FutureFits(b)
    ensures FutureFits(Claim(b, w, q, job, now))
  {
  }

  lemma QueuedIsReady(b: State, q: string, job: Job)
    requires AllKnown(b) && JobsFit(b) && q in b.queues && job in b.queues[q].jobs
    ensures job.node in b.nodes && b.nodes[job.node].decl.queueName == q && job.priority == Order(b, job.node)
    ensures ReadyCount(b, job.node) >= 1
  {
  }

  /** n moves from its queue, where it was once, to worker w. */
  ghost predicate HandedOut(b: State, c: State, w: Id, n: Id)
    requires AllKnown(b) && AllKnown(c) && n in b.nodes && n in c.nodes && w in b.workers
  {
    && ReadyCount(b, n) == 1 && ReadyCount(c, n) == 0
    && b.nodes[n].dequeueWorker.None? && c.nodes[n].dequeueWorker == Some(w)
    && w in c.workers && c.workers[w].claimedWork == b.workers[w].claimedWork + [n]
    && c.workers[w].allowedQueues == EffectiveAllowed(b, b.workers[w])
    && forall m | m in b.nodes && m != n :: m in c.nodes && c.nodes[m] == b.nodes[m]
         && ReadyCount(c, m) == ReadyCount(b, m)
  }

  lemma ClaimFillsCache(b: State, w: Id, q: string, job: Job, now: int)
    requires w in b.workers && q in b.queues && job.node in b.nodes
    ensures w in Claim(b, w, q, job, now).workers
    ensures Claim(b, w, q, job, now).workers[w].allowedQueues == EffectiveAllowed(b, b.workers[w])
  {
    hide EffectiveAllowed;
  }

  lemma ClaimHandsOut(b: State, w: Id, q: string, job: Job, now: int)
    requires AllKnown(b) && JobsFit(b) && Placed(b) && FutureFits(b)
    requires w in b.workers && q in b.queues && job in b.queues[q].jobs
    ensures job.node in b.nodes && AllKnown(Claim(b, w, q, job, now))
    ensures HandedOut(b, Claim(b, w, q, job, now), w, job.node)
  {
    hide JobsFit, FutureFits, ReadyCount, SourcesDone, DelayedCount, Exhausted, Placed, Claim, EffectiveAllowed;
    QueuedIsReady(b, q, job);
    ClaimFillsCache(b, w, q, job, now);
    ReadyFacts(b, job.node);
    ClaimNodes(b, w, q, job, now);
    var c := Claim(b, w, q, job, now);
    forall m | m in b.nodes
      ensures ReadyCount(c, m) + One(m == job.node) == ReadyCount(b, m)
    {
      PopReadyCount(b, c, q, job, m);
    }
  }

  lemma ClaimKeepsOnce(b: State, w: Id, q: string, job: Job, now: int)
    requires AllKnown(b) && JobsFit(b) && OnceEach(b)
    requires w in b.workers && !b.workers[w].invalidated && q in b.queues && job in b.queues[q].jobs
    ensures job.node in b.nodes && AllKnown(Claim(b, w, q, job, now)) && OnceEach(Claim(b, w, q, job, now))
    ensures HandedOut(b, Claim(b, w, q, job, now), w, job.node)
  {
    hide JobsFit, FutureFits, Leased, Budgeted, Distinct, ReadyCount, SourcesDone, DelayedCount, Exhausted, HandedOut;
    ClaimHandsOut(b, w, q, job, now);
    QueuedIsReady(b, q, job);
    ReadyFacts(b, job.node);
    ClaimKeepsLeased(b, w, q, job, now);
    ClaimKeepsFutureFits(b, w, q, job, now);
    var c := Claim(b, w, q, job, now);
    ClaimNodes(b, w, q, job, now);
    hide Claim;
    BudgetedStable(b, c);
    hide Tally, AllKnown;
    forall m | m in c.nodes
      ensures Tally(c, m) == 1
    {
      ClaimTally(b, w, q, job, now, m);
    }
  }

  // ---------------------------------------------------------------- SubmitWork

  /** Resolving up to the notification: completed, released. */
  function Settled(b: State, n: Id, value: Obj): State
    requires n in b.nodes
  {
    ReleaseWorkerLock(MarkCompleted(b, n, value), n)
  }

  /** Node n is held by worker w, who is not fenced. */
  ghost predicate Holds(b: State, w: Id, n: Id) {
    w in b.workers && !b.workers[w].invalidated && n in b.workers[w].claimedWork
      && n in b.nodes && b.nodes[n].dequeueWorker == Some(w)
  }

  lemma SettledShape(b: State, w: Id, n: Id, value: Obj)
    requires Holds(b, w, n)
    ensures var c := Settled(b, n, value);
      && c == b.(nodes := c.nodes, workers := c.workers)
      && c.nodes == b.nodes[n := Unclaim(b.nodes[n].(resolvedValue := value, completed := true))]
      && c.workers == b.workers[w := b.workers[w].(claimedWork := Without(b.workers[w].claimedWork, n))]
  {
  }

  lemma ReleaseKeepsLeased(b: State, c: State, w: Id, n: Id)
    requires Leased(b) && Holds(b, w, n)
    requires c.nodes.Keys == b.nodes.Keys && b.queues.Keys <= c.queues.Keys
    requires c.workers == b.workers[w := b.workers[w].(claimedWork := Without(b.workers[w].claimedWork, n))]
    requires c.nodes[n].dequeueWorker.None?
    requires forall m | m in b.nodes && m != n ::
      c.nodes[m].dequeueWorker == b.nodes[m].dequeueWorker && c.nodes[m].decl == b.nodes[m].decl
    ensures Leased(c)
  {
    WithoutIsLess(b.workers[w].claimedWork, n);
    FilterKeepsNoDup(b.workers[w].claimedWork, (k: Id) => k != n);
    hide NoDup;
  }

  lemma SettledKeeps(b: State, w: Id, n: Id, value: Obj)
    requires AllKnown(b) && FutureFits(b) && Leased(b) && Budgeted(b) && Distinct(b) && Holds(b, w, n)
    ensures var c := Settled(b, n, value);
      AllKnown(c) && FutureFits(c) && Leased(c) && Budgeted(c) && Distinct(c)
  {
    hide Settled, WithinBudget, NoDup;
    SettledShape(b, w, n, value);
    var c := Settled(b, n, value);
    BudgetedStable(b, c);
    hide Budgeted, Distinct;
    ReleaseKeepsLeased(b, c, w, n);
    hide Leased;
  }

  /** Destinations that become ready were waiting, so they have no retry pending. */
  lemma DestinationsArePrompt(b: State, w: Id, n: Id, value: Obj)
    requires Graph(b) && Placed(b) && FutureFits(b) && Holds(b, w, n) && !b.nodes[n].completed
    ensures Prompt(Settled(b, n, value), b.nodes[n].destinations)
  {
    SettledShape(b, w, n, value);
    var c := Settled(b, n, value);
    hide Settled;
    forall d | d in b.nodes[n].destinations
      ensures d in b.nodes && d != n && b.nodes[d].nextRetry == -1
    {
      DestinationWaits(b, n, d);
      WaitingFacts(b, d);
    }
  }

  lemma DestinationWaits(b: State, n: Id, d: Id)
    requires Graph(b) && n in b.nodes && d in b.nodes[n].destinations && !b.nodes[n].completed
    ensures d in b.nodes && d != n && !SourcesDone(b, d)
  {
  }

  ghost predicate MaySettle(b: State, w: Id, n: Id, value: Obj) {
    && Graph(b) && Holds(b, w, n) && AllKnown(Settled(b, n, value))
    && Prompt(Settled(b, n, value), b.nodes[n].destinations)
  }

  /** The whole effect of a resolution on where nodes are. */
  lemma ResolveCounts(b: State, w: Id, n: Id, value: Obj, now: int, m: Id)
    requires MaySettle(b, w, n, value) && m in b.nodes
    ensures var c := Settled(b, n, value);
      var r := NotifyAll(c, b.nodes[n].destinations, now);
      && r.nodes == c.nodes && r.future == b.future
      && SourcesDone(r, m) == SourcesDone(c, m)
      && ReadyCount(r, m) == ReadyCount(b, m) + (if SourcesDone(c, m) then Count(b.nodes[m].decl.sources, n) else 0)
  {
    SettledShape(b, w, n, value);
    var c, ds := Settled(b, n, value), b.nodes[n].destinations;
    hide Settled;
    NotifyCount(c, ds, now, m);
    NotifyEffect(c, ds, now);
    SameNodesSameSources(c, NotifyAll(c, ds, now), m);
    SameQueuesSameReady(b, c, m);
    assert Count(ds, m) == Count(b.nodes[m].decl.sources, n);
    hide ReadyCount, SourcesDone, NotifyAll, Graph, Prompt, AllKnown;
  }

  /** b, c, r: before, settled, notified. */
  ghost predicate Resolved(b: State, c: State, r: State, n: Id, value: Obj, m: Id)
    requires AllKnown(b) && n in b.nodes && m in b.nodes
  {
    && AllKnown(r) && c.nodes == b.nodes[n := Unclaim(b.nodes[n].(resolvedValue := value, completed := true))]
    && r.nodes == c.nodes && r.future == b.future
    && SourcesDone(r, m) == SourcesDone(c, m)
    && ReadyCount(r, m) == ReadyCount(b, m) + if SourcesDone(c, m) then Count(b.nodes[m].decl.sources, n) else 0
  }

  lemma ResolvedIs(b: State, w: Id, n: Id, value: Obj, now: int, m: Id)
    requires AllKnown(b) && MaySettle(b, w, n, value) && m in b.nodes
    ensures n in b.nodes
    ensures var c := Settled(b, n, value); Resolved(b, c, NotifyAll(c, b.nodes[n].destinations, now), n, value, m)
  {
    SettledShape(b, w, n, value);
    ResolveCounts(b, w, n, value, now, m);
    hide ReadyCount, SourcesDone, NotifyAll, Settled, Graph, Prompt;
  }

  lemma SelfTally(b: State, c: State, r: State, n: Id, value: Obj)
    requires AllKnown(b) && Placed(b) && FutureFits(b) && Acyclic(b)
    requires n in b.nodes && b.nodes[n].dequeueWorker.Some? && Resolved(b, c, r, n, value, n)
    ensures Tally(r, n) == 1
  {
    HeldFacts(b, n);
    AbsentCount(b.nodes[n].decl.sources, n);
    SettledSources(b, c, n, n);
    hide ReadyCount, SourcesDone, Placed, FutureFits, Acyclic;
  }

  /** Notification moves exactly the nodes whose last source completed from waiting to ready. */
  lemma OtherTally(b: State, c: State, r: State, n: Id, value: Obj, m: Id)
    requires AllKnown(b) && Placed(b) && FutureFits(b) && n in b.nodes && !b.nodes[n].completed
    requires m in b.nodes && m != n && NoDup(b.nodes[m].decl.sources) && Resolved(b, c, r, n, value, m)
    ensures Tally(r, m) == 1
  {
    hide ReadyCount, SourcesDone, Placed, FutureFits, NoDup;
    NoDupCount(b.nodes[m].decl.sources, n);
    SettledSources(b, c, n, m);
    PlacedAt(b, m);
    if !SourcesDone(b, m) {
      WaitingFacts(b, m);
    }
  }

  /** Completing n completes the sources of m exactly if n was its only incomplete source. */
  lemma SettledSources(b: State, c: State, n: Id, m: Id)
    requires n in b.nodes && m in b.nodes && c.nodes.Keys == b.nodes.Keys && !b.nodes[n].completed
    requires c.nodes[n].completed && forall x | x in b.nodes && x != n :: c.nodes[x].completed == b.nodes[x].completed
    requires forall x | x in b.nodes :: c.nodes[x].decl == b.nodes[x].decl
    ensures SourcesDone(b, m) ==> SourcesDone(c, m) && n !in b.nodes[m].decl.sources
    ensures !SourcesDone(b, m) && SourcesDone(c, m) ==> n in b.nodes[m].decl.sources
  {
  }

  lemma ResolveKeepsPlaced(b: State, w: Id, n: Id, value: Obj, now: int)
    requires AllKnown(b) && MaySettle(b, w, n, value) && Placed(b) && FutureFits(b) && Distinct(b)
    ensures Placed(NotifyAll(Settled(b, n, value), b.nodes[n].destinations, now))
  {
    assert Holds(b, w, n) && Acyclic(b);
    hide MaySettle, Tally, Resolved, Settled, NotifyAll, Placed, FutureFits, Acyclic, NoDup;
    HeldFacts(b, n);
    var c := Settled(b, n, value);
    var r := NotifyAll(c, b.nodes[n].destinations, now);
    forall m | m in b.nodes
      ensures m in r.nodes && Tally(r, m) == 1
    {
      ResolvedIs(b, w, n, value, now, m);
      ResolvedKeys(b, c, r, n, value, m);
      if m == n {
        SelfTally(b, c, r, n, value);
      } else {
        OtherTally(b, c, r, n, value, m);
      }
    }
    ResolvedIs(b, w, n, value, now, n);
    ResolvedKeys(b, c, r, n, value, n);
    AssemblePlaced(r);
  }

  lemma ResolvedKeys(b: State, c: State, r: State, n: Id, value: Obj, m: Id)
    requires AllKnown(b) && n in b.nodes && m in b.nodes && Resolved(b, c, r, n, value, m)
    ensures r.nodes.Keys == b.nodes.Keys && AllKnown(r)
  {
  }

  lemma NotifyKeepsRest(b: State, ds: seq<Id>, now: int)
    requires AllKnown(b) && Prompt(b, ds)
    requires FutureFits(b) && Leased(b) && Budgeted(b) && Distinct(b)
    ensures var r := NotifyAll(b, ds, now); FutureFits(r) && Leased(r) && Budgeted(r) && Distinct(r)
  {
    hide NotifyAll, WithinBudget, NoDup, AllKnown, SourcesDone;
    NotifyEffect(b, ds, now);
    var r := NotifyAll(b, ds, now);
    LeasedStable(b, r);
    BudgetedStable(b, r);
    hide Leased, Budgeted, Distinct;
  }

  /** n is completed and free, and exactly the nodes whose last source it was become ready, each once. */
  ghost predicate Released(b: State, r: State, n: Id, value: Obj)
    requires AllKnown(b) && AllKnown(r) && n in b.nodes
  {
    && r.nodes == b.nodes[n := Unclaim(b.nodes[n].(resolvedValue := value, completed := true))]
    && r.future == b.future
    && forall m | m in b.nodes ::
         ReadyCount(r, m) == ReadyCount(b, m) + One(!SourcesDone(b, m) && SourcesDone(r, m))
  }

  lemma ReleasedAt(b: State, c: State, r: State, n: Id, value: Obj, m: Id)
    requires AllKnown(b) && n in b.nodes && m in b.nodes && !b.nodes[n].completed
    requires Resolved(b, c, r, n, value, m) && NoDup(b.nodes[m].decl.sources)
    ensures ReadyCount(r, m) == ReadyCount(b, m) + One(!SourcesDone(b, m) && SourcesDone(r, m))
  {
    hide ReadyCount, SourcesDone, NoDup;
    NoDupCount(b.nodes[m].decl.sources, n);
    SettledSources(b, c, n, m);
  }

  lemma ResolveReleases(b: State, w: Id, n: Id, value: Obj, now: int)
    requires AllKnown(b) && MaySettle(b, w, n, value) && Placed(b) && FutureFits(b) && Distinct(b)
    ensures Released(b, NotifyAll(Settled(b, n, value), b.nodes[n].destinations, now), n, value)
  {
    assert Holds(b, w, n);
    hide MaySettle, Resolved, Settled, NotifyAll, Placed, FutureFits, NoDup, ReadyCount, SourcesDone;
    HeldFacts(b, n);
    var c := Settled(b, n, value);
    var r := NotifyAll(c, b.nodes[n].destinations, now);
    forall m | m in b.nodes
      ensures ReadyCount(r, m) == ReadyCount(b, m) + One(!SourcesDone(b, m) && SourcesDone(r, m))
    {
      ResolvedIs(b, w, n, value, now, m);
      ReleasedAt(b, c, r, n, value, m);
    }
    ResolvedIs(b, w, n, value, now, n);
    ResolvedFacts(b, c, r, n, value);
  }

  lemma ResolvedFacts(b: State, c: State, r: State, n: Id, value: Obj)
    requires AllKnown(b) && n in b.nodes && Resolved(b, c, r, n, value, n)
    ensures r.nodes == b.nodes[n := Unclaim(b.nodes[n].(resolvedValue := value, completed := true))]
    ensures r.future == b.future
  {
  }

  lemma ResolveKeepsOnce(b: State, w: Id, n: Id, value: Obj, now: int)
    requires Graph(b) && OnceEach(b) && Holds(b, w, n)
    ensures OnceEach(ExecutionDidResolve(b, n, value, now))
    ensures Released(b, ExecutionDidResolve(b, n, value, now), n, value)
  {
    HeldFacts(b, n);
    hide Released;
    hide Placed, FutureFits, Leased, Budgeted, Distinct, SourcesDone, ReadyCount, NotifyAll;
    SettledKeeps(b, w, n, value);
    DestinationsArePrompt(b, w, n, value);
    NotifyKeepsRest(Settled(b, n, value), b.nodes[n].destinations, now);
    ResolveKeepsPlaced(b, w, n, value, now);
    ResolveReleases(b, w, n, value, now);
  }
}
