/** The remaining operations keep Sound too: creation, claiming, and the two background ticks. */
module SafetyOfSteps {
  import opened Basics
  import opened Retry
  import opened Inspection
  import opened Model
  import opened Safety

  lemma EmptyIsSound()
    ensures Sound(EMPTY)
  {
  }

  // ---------------------------------------------------------------- workers and instances

  lemma NewWorkerKeepsSound(
      b: State, w: Id, exclude: seq<string>, include_: seq<string>, tolerations: seq<string>, now: int)
    requires Sound(b) && w !in b.workers
    ensures Sound(NewWorker(b, w, exclude, include_, tolerations, now))
  {
    hide Ranked, Acyclic, BackLinked, DestinationsKnown, JobsFit, Due, Allowed;
    var c := NewWorker(b, w, exclude, include_, tolerations, now);
    GraphStable(b, c);
    JobsFitStable(b, c);
    DueStable(b, c);
    forall v | v in b.workers
      ensures Allowed(c, b.workers[v]) == Allowed(b, b.workers[v])
    {
      SameQueuesSameAllowed(b, c, b.workers[v]);
    }
  }

  lemma SameQueuesSameAllowed(b: State, c: State, worker: Worker)
    requires c.queues == b.queues
    ensures Allowed(c, worker) == Allowed(b, worker)
  {
  }

  lemma NewInstanceKeepsGraph(b: State, i: Id)
    requires Graph(b) && i !in b.instances
    ensures Graph(NewInstance(b, i))
  {
    var c := NewInstance(b, i);
    assert AllKnown(c) && DestinationsKnown(c) by { hide Ranked, Acyclic, BackLinked; }
    assert Ranked(c) by { hide Acyclic, BackLinked, AllKnown, DestinationsKnown; }
    assert Acyclic(c) by { hide Ranked, BackLinked, AllKnown, DestinationsKnown; }
    assert BackLinked(c) by { hide Ranked, Acyclic, AllKnown, DestinationsKnown; }
  }

  lemma NewInstanceKeepsOrdered(b: State, i: Id)
    requires Ordered(b) && i !in b.instances
    ensures Ordered(NewInstance(b, i))
  {
  }

  lemma NewInstanceKeepsJobsFit(b: State, i: Id)
    requires AllKnown(b) && JobsFit(b) && i !in b.instances
    ensures AllKnown(NewInstance(b, i)) && JobsFit(NewInstance(b, i))
  {
  }

  lemma NewInstanceKeepsRest(b: State, i: Id)
    requires Due(b) && Coherent(b)
    ensures Due(NewInstance(b, i)) && Coherent(NewInstance(b, i))
  {
    var c := NewInstance(b, i);
    CoherentStable(b, c);
    hide Coherent;
    forall m | m in b.nodes
      ensures SourcesDone(c, m) == SourcesDone(b, m)
    {
    }
    hide SourcesDone;
  }

  lemma NewInstanceKeepsSound(b: State, i: Id)
    requires Sound(b) && i !in b.instances
    ensures Sound(NewInstance(b, i))
  {
    SoundBasics(b);
    hide Graph, Ordered, JobsFit, Due, Coherent;
    NewInstanceKeepsGraph(b, i);
    NewInstanceKeepsOrdered(b, i);
    NewInstanceKeepsJobsFit(b, i);
    NewInstanceKeepsRest(b, i);
  }

  lemma PingKeepsSound(b: State, w: Id, now: int)
    requires Sound(b) && w in b.workers
    ensures Sound(Ping(b, w, now))
  {
    hide Sound;
    WorkerTweakKeepsSound(b, w, b.workers[w].(lastPing := Unix(now)));
  }

  // ---------------------------------------------------------------- NewNode

  /** Linking n to its sources adds n to a's destinations once per mention of a. */
  lemma {:induction false} BackLinksCount(nodes: map<Id, Node>, sources: seq<Id>, n: Id, a: Id, d: Id)
    requires a in nodes && forall s | s in sources :: s in nodes
    ensures Count(AddBackLinks(nodes, sources, n)[a].destinations, d)
         == Count(nodes[a].destinations, d) + if d == n then Count(sources, a) else 0
  {
    if sources != [] {
      var init, s := sources[..|sources| - 1], sources[|sources| - 1];
      BackLinksCount(nodes, init, n, a, d);
      assert sources == init + [s];
      CountAppend(init, s, a);
      CountAppend(AddBackLinks(nodes, init, n)[a].destinations, n, d);
    }
  }

  lemma AbsentCount(s: seq<Id>, x: Id)
    requires x !in s
    ensures Count(s, x) == 0
  {
  }

  ghost predicate MayInsert(b: State, n: Id, decl: Decl) {
    AllKnown(b) && n !in b.nodes && decl.instance in b.instances && forall s | s in decl.sources :: s in b.nodes
  }

  lemma InsertKeepsBackLinked(b: State, n: Id, decl: Decl, policy: Option<Policy>)
    requires MayInsert(b, n, decl)
    requires BackLinked(b) && DestinationsKnown(b) && SourcesKnown(b)
    ensures BackLinked(InsertNode(b, n, decl, policy))
  {
    var c := InsertNode(b, n, decl, policy);
    var base := b.nodes[n := FreshNode(b, decl, policy)];
    forall a, d | a in c.nodes && d in c.nodes
      ensures Count(c.nodes[a].destinations, d) == Count(c.nodes[d].decl.sources, a)
    {
      BackLinksCount(base, decl.sources, n, a, d);
      if d == n {
        if a != n {
          AbsentCount(b.nodes[a].destinations, n);
        }
      } else if a == n {
        AbsentCount(b.nodes[d].decl.sources, n);
      }
    }
  }

  lemma InsertKeepsRanked(b: State, n: Id, decl: Decl, policy: Option<Policy>)
    requires MayInsert(b, n, decl) && Ranked(b)
    ensures Ranked(InsertNode(b, n, decl, policy))
  {
    hide AddBackLinks, AllKnown;
  }

  lemma InsertKeepsAcyclic(b: State, n: Id, decl: Decl, policy: Option<Policy>)
    requires MayInsert(b, n, decl) && Ranked(b) && Acyclic(b)
    ensures Acyclic(InsertNode(b, n, decl, policy))
  {
  }

  lemma InsertKeepsDestinationsKnown(b: State, n: Id, decl: Decl, policy: Option<Policy>)
    requires MayInsert(b, n, decl) && DestinationsKnown(b)
    ensures DestinationsKnown(InsertNode(b, n, decl, policy))
  {
    var c := InsertNode(b, n, decl, policy);
    var base := b.nodes[n := FreshNode(b, decl, policy)];
    forall a, d | a in c.nodes && d !in c.nodes
      ensures d !in c.nodes[a].destinations
    {
      BackLinksCount(base, decl.sources, n, a, d);
      AbsentCount(base[a].destinations, d);
      assert Count(c.nodes[a].destinations, d) == 0;
    }
  }

  lemma InsertKeepsGraph(b: State, n: Id, decl: Decl, policy: Option<Policy>)
    requires MayInsert(b, n, decl) && Graph(b)
    ensures Graph(InsertNode(b, n, decl, policy))
  {
    assert SourcesKnown(b) && DestinationsKnown(b);
    hide Ranked, BackLinked, Acyclic, DestinationsKnown, AddBackLinks, SourcesKnown;
    InsertKeepsBackLinked(b, n, decl, policy);
    InsertKeepsDestinationsKnown(b, n, decl, policy);
    InsertKeepsRanked(b, n, decl, policy);
    InsertKeepsAcyclic(b, n, decl, policy);
  }

  /** What a node that was there before looks like after the insertion. */
  lemma InsertKeepsOthers(b: State, n: Id, decl: Decl, policy: Option<Policy>)
    requires MayInsert(b, n, decl)
    ensures var c := InsertNode(b, n, decl, policy);
            && (forall m | m in b.nodes :: c.nodes[m] == b.nodes[m].(destinations := c.nodes[m].destinations))
            && c.nodes[n] == FreshNode(b, decl, policy).(destinations := c.nodes[n].destinations)
  {
  }

  lemma InsertKeepsDue(b: State, n: Id, decl: Decl, policy: Option<Policy>)
    requires MayInsert(b, n, decl) && Due(b) && SourcesKnown(b)
    ensures Due(InsertNode(b, n, decl, policy))
  {
    var c := InsertNode(b, n, decl, policy);
    InsertKeepsOthers(b, n, decl, policy);
    assert c.queues == b.queues && c.future == b.future && c.workers == b.workers;
    hide InsertNode;
    forall m | m in b.nodes
      ensures SourcesDone(c, m) == SourcesDone(b, m)
    {
    }
    hide SourcesDone;
  }

  lemma InsertKeepsJobsFit(b: State, n: Id, decl: Decl, policy: Option<Policy>)
    requires MayInsert(b, n, decl) && JobsFit(b)
    ensures JobsFit(InsertNode(b, n, decl, policy))
  {
  }

  lemma InsertKeepsSound(b: State, n: Id, decl: Decl, policy: Option<Policy>)
    requires MayInsert(b, n, decl) && Sound(b)
    ensures Sound(InsertNode(b, n, decl, policy))
  {
    SoundBasics(b);
    var c := InsertNode(b, n, decl, policy);
    assert c.instances == b.instances && c.queues == b.queues && c.workers == b.workers;
    hide InsertNode;
    InsertKeepsGraph(b, n, decl, policy);
    InsertKeepsDue(b, n, decl, policy);
    InsertKeepsJobsFit(b, n, decl, policy);
    CoherentStable(b, c);
    hide Graph, JobsFit, Due, Coherent;
  }

  lemma NewNodeKeepsSound(b: State, n: Id, decl: Decl, policy: Option<Policy>, now: int)
    requires MayInsert(b, n, decl) && Sound(b)
    ensures Sound(NewNode(b, n, decl, policy, now))
  {
    InsertKeepsSound(b, n, decl, policy);
    hide Sound, InsertNode, SourcesDone;
    var c := InsertNode(b, n, decl, policy);
    if SourcesDone(c, n) {
      EnqueueKeepsSound(c, n, now);
    }
  }

  // ---------------------------------------------------------------- PopNextNode

  lemma FillCacheKeepsSound(b: State, w: Id)
    requires Sound(b) && w in b.workers
    ensures Sound(FillCache(b, w))
  {
    hide Sound, Allowed;
    WorkerTweakKeepsSound(b, w, b.workers[w].(allowedQueues := EffectiveAllowed(b, b.workers[w])));
  }

  function Popped(b: State, q: string, job: Job): State
    requires q in b.queues
  {
    b.(queues := b.queues[q := b.queues[q].(jobs := b.queues[q].jobs - multiset{job})])
  }

  lemma PopShrinks(b: State, q: string, job: Job)
    requires q in b.queues
    ensures var c := Popped(b, q, job);
            SameShape(b, c) && FewerQueued(b, c) && FewerDelayed(b, c) && FewerClaims(b, c) && SameTaints(b, c)
  {
  }

  lemma PopKeepsSound(b: State, q: string, job: Job)
    requires Sound(b) && q in b.queues
    ensures Sound(Popped(b, q, job))
  {
    PopShrinks(b, q, job);
    hide SameShape, FewerQueued, FewerDelayed, FewerClaims, SameTaints;
    hide Ranked, Acyclic, BackLinked, DestinationsKnown, JobsFit, Due, Coherent;
    var c := Popped(b, q, job);
    SameShapeGraph(b, c);
    GraphStable(b, c);
    JobsFitStable(b, c);
    DueStable(b, c);
    CoherentStable(b, c);
  }

  lemma SameShapeGraph(b: State, c: State)
    requires SameShape(b, c)
    ensures SameGraph(b, c)
  {
  }

  function Taken(b: State, w: Id, n: Id): State
    requires w in b.workers
  {
    b.(workers := b.workers[w := b.workers[w].(claimedWork := b.workers[w].claimedWork + [n])])
  }

  lemma TakeKeepsDue(b: State, w: Id, n: Id)
    requires Due(b) && w in b.workers && n in b.nodes && SourcesDone(b, n)
    ensures Due(Taken(b, w, n))
  {
    var c := Taken(b, w, n);
    forall m | m in b.nodes
      ensures SourcesDone(c, m) == SourcesDone(b, m)
    {
      SourcesDoneStable(b, c, m);
    }
    hide SourcesDone;
  }

  lemma TakeKeepsCoherent(b: State, w: Id, n: Id)
    requires Coherent(b) && w in b.workers
    ensures Coherent(Taken(b, w, n))
  {
  }

  lemma TakeKeepsSound(b: State, w: Id, n: Id)
    requires Sound(b) && w in b.workers && n in b.nodes && SourcesDone(b, n)
    ensures Sound(Taken(b, w, n))
  {
    hide Ranked, Acyclic, BackLinked, DestinationsKnown, JobsFit, Due, Coherent, SourcesDone;
    var c := Taken(b, w, n);
    GraphStable(b, c);
    JobsFitStable(b, c);
    TakeKeepsDue(b, w, n);
    TakeKeepsCoherent(b, w, n);
  }

  /** A job that Sound knows about can be claimed by anyone who may use its queue. */
  lemma ClaimKeepsSound(b: State, w: Id, q: string, job: Job, now: int)
    requires Sound(b) && w in b.workers && q in b.queues && job in b.queues[q].jobs
    ensures job.node in b.nodes && SourcesDone(b, job.node)
    ensures Sound(Claim(b, w, q, job, now))
  {
    assert job.node in b.nodes && SourcesDone(b, job.node);
    hide Sound;
    FillCacheKeepsSound(b, w);
    var c := FillCache(b, w);
    PopKeepsSound(c, q, job);
    var d := Popped(c, q, job);
    TweakShape(d, job.node, d.nodes[job.node].(dequeueTimestamp := Unix(now), dequeueWorker := Some(w)));
    TweakKeepsSound(d, job.node, d.nodes[job.node].(dequeueTimestamp := Unix(now), dequeueWorker := Some(w)));
    var e := d.(nodes := d.nodes[job.node :=
      d.nodes[job.node].(dequeueTimestamp := Unix(now), dequeueWorker := Some(w))]);
    SourcesDoneStable(b, d, job.node);
    SourcesDoneStable(d, e, job.node);
    TakeKeepsSound(e, w, job.node);
    assert Claim(b, w, q, job, now) == Taken(e, w, job.node);
  }

  // ---------------------------------------------------------------- garbage collection

  lemma ReclaimKeepsSound(b: State, n: Id, now: int)
    requires Sound(b) && n in b.nodes && SourcesDone(b, n)
    ensures AllKnown(b) && Sound(Reclaim(b, n, now)) && SameShape(b, Reclaim(b, n, now))
  {
    SoundBasics(b);
    hide Sound, AllKnown, EnqueueNode, SourcesDone, SameButRetry, SameShape;
    TweakShape(b, n, Unclaim(b.nodes[n]));
    TweakKeepsSound(b, n, Unclaim(b.nodes[n]));
    var c := b.(nodes := b.nodes[n := Unclaim(b.nodes[n])]);
    SoundBasics(c);
    SourcesDoneStable(b, c, n);
    EnqueueKeepsSound(c, n, now);
    EnqueueKeepsNodes(c, n, now);
    SameButRetryShape(c, EnqueueNode(c, n, now));
    SameShapeTransitive(b, c, EnqueueNode(c, n, now));
  }

  lemma {:induction false} ReclaimAllKeepsSound(b: State, ns: seq<Id>, now: int)
    requires Sound(b) && forall n | n in ns :: n in b.nodes && SourcesDone(b, n)
    ensures AllKnown(b) && Sound(ReclaimAll(b, ns, now)) && SameShape(b, ReclaimAll(b, ns, now))
  {
    SoundBasics(b);
    if ns == [] {
      hide Sound;
    } else {
      hide Sound, AllKnown, Reclaim, SourcesDone, SameShape;
      var init, n := ns[..|ns| - 1], ns[|ns| - 1];
      ReclaimAllKeepsSound(b, init, now);
      var c := ReclaimAll(b, init, now);
      SourcesDoneStable(b, c, n);
      ReclaimKeepsSound(c, n, now);
      SameShapeTransitive(b, c, Reclaim(c, n, now));
    }
  }

  lemma ClaimsAreDue(b: State, w: Id, n: Id)
    requires Sound(b) && w in b.workers && n in b.workers[w].claimedWork
    ensures n in b.nodes && SourcesDone(b, n)
  {
  }

  lemma StaleKeepsSound(b: State, w: Id, now: int)
    requires Sound(b) && AllKnown(b) && ClaimsKnown(b) && w in b.workers && Stale(b.workers[w], now)
    ensures Sound(CollectWorker(b, w, now)) && SameShape(b, CollectWorker(b, w, now))
  {
    hide Sound, AllKnown, ClaimsKnown, ReclaimAll, SourcesDone, SameShape, Stale;
    var ns := b.workers[w].claimedWork;
    forall n | n in ns
      ensures n in b.nodes && SourcesDone(b, n)
    {
      ClaimsAreDue(b, w, n);
    }
    ReclaimAllKeepsSound(b, ns, now);
    var c := ReclaimAll(b, ns, now);
    if w in c.workers {
      WorkerTweakKeepsSound(c, w, c.workers[w].(claimedWork := [], invalidated := true));
      RetireShape(b, c, w);
    }
  }

  lemma CollectWorkerKeepsSound(b: State, w: Id, now: int)
    requires Sound(b)
    ensures AllKnown(b) && ClaimsKnown(b)
    ensures Sound(CollectWorker(b, w, now)) && SameShape(b, CollectWorker(b, w, now))
  {
    SoundBasics(b);
    if w in b.workers && Stale(b.workers[w], now) {
      hide Sound, CollectWorker, SameShape;
      StaleKeepsSound(b, w, now);
    } else {
      hide Sound;
    }
  }

  lemma RetireShape(b: State, c: State, w: Id)
    requires SameShape(b, c) && w in c.workers
    ensures SameShape(b, Retire(c, w))
  {
  }

  lemma {:induction false} CollectAllKeepsSound(b: State, ws: seq<Id>, now: int)
    requires Sound(b)
    ensures AllKnown(b) && ClaimsKnown(b)
    ensures Sound(CollectAll(b, ws, now)) && SameShape(b, CollectAll(b, ws, now))
  {
    SoundBasics(b);
    if ws == [] {
      hide Sound;
    } else {
      hide Sound, AllKnown, ClaimsKnown, CollectWorker, SameShape;
      var init, w := ws[..|ws| - 1], ws[|ws| - 1];
      CollectAllKeepsSound(b, init, now);
      var c := CollectAll(b, init, now);
      CollectWorkerKeepsSound(c, w, now);
      SameShapeTransitive(b, c, CollectWorker(c, w, now));
    }
  }

  // ---------------------------------------------------------------- draining the future heap

  lemma FutureIsDue(b: State, job: Job)
    requires Sound(b) && job in b.future
    ensures job.node in b.nodes && SourcesDone(b, job.node)
  {
  }

  lemma UnqueueKeepsSound(b: State, job: Job)
    requires Sound(b)
    ensures Sound(Undelay(b, job))
  {
    hide Ranked, Acyclic, BackLinked, DestinationsKnown, JobsFit, Due, Coherent;
    var c := Undelay(b, job);
    GraphStable(b, c);
    JobsFitStable(b, c);
    DueStable(b, c);
    CoherentStable(b, c);
  }

  lemma DrainOneKeepsSound(b: State, job: Job, now: int)
    requires Sound(b) && job in b.future
    ensures AllKnown(b) && job.node in b.nodes
    ensures Sound(DrainOne(b, job, now)) && SameShape(b, DrainOne(b, job, now))
  {
    SoundBasics(b);
    FutureIsDue(b, job);
    UnqueueKeepsSound(b, job);
    var c := Undelay(b, job);
    SameNodesShape(b, c);
    SoundBasics(c);
    hide Sound, AllKnown, EnqueueNode, SourcesDone, SameButRetry, SameShape;
    SourcesDoneStable(b, c, job.node);
    EnqueueKeepsSound(c, job.node, now);
    EnqueueKeepsNodes(c, job.node, now);
    SameButRetryShape(c, EnqueueNode(c, job.node, now));
    SameShapeTransitive(b, c, EnqueueNode(c, job.node, now));
  }

  lemma SameNodesShape(b: State, c: State)
    requires c.nodes == b.nodes && c.created == b.created && c.instances == b.instances
    ensures SameShape(b, c)
  {
  }

  lemma {:induction false} DrainAllKeepsSound(b: State, jobs: seq<Job>, now: int)
    requires Sound(b) && AllKnown(b) && forall j | j in jobs :: j.node in b.nodes
    requires DrainRounds(b, jobs, now)
    ensures Sound(DrainAll(b, jobs, now)) && SameShape(b, DrainAll(b, jobs, now))
  {
    if jobs == [] {
      hide Sound;
    } else {
      hide Sound, AllKnown, DrainOne, SameShape;
      var init, job := jobs[..|jobs| - 1], jobs[|jobs| - 1];
      DrainAllKeepsSound(b, init, now);
      var c := DrainAll(b, init, now);
      DrainOneKeepsSound(c, job, now);
      SameShapeTransitive(b, c, DrainOne(c, job, now));
    }
  }
}
