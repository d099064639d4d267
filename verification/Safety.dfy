/**
 * What every operation keeps, with no assumption on how often sources are listed or answers repeated: the graph is
 * acyclic and its back-links mirror its sources, jobs sit in the right queue at the right priority, nothing is
 * queued or claimed before its sources are complete, and cached queue lists are either empty or current.
 */
module Safety {
  import opened Basics
  import opened Retry
  import opened Inspection
  import opened Model

  // ---------------------------------------------------------------- invariants

  function Count(s: seq<Id>, x: Id): nat {
    multiset(s)[x]
  }

  /** created lists every node once, at its rank. */
  ghost predicate Ranked(b: State) {
    && (forall n | n in b.nodes :: b.nodes[n].rank < |b.created| && b.created[b.nodes[n].rank] == n)
    && (forall k | 0 <= k < |b.created| :: b.created[k] in b.nodes && b.nodes[b.created[k]].rank == k)
  }

  /** Sources were created strictly earlier. */
  ghost predicate Acyclic(b: State) {
    forall n, s | n in b.nodes && s in b.nodes[n].decl.sources :: s in b.nodes && b.nodes[s].rank < b.nodes[n].rank
  }

  /** a lists d as a destination as often as d lists a as a source. */
  ghost predicate BackLinked(b: State) {
    forall a, d | a in b.nodes && d in b.nodes ::
      Count(b.nodes[a].destinations, d) == Count(b.nodes[d].decl.sources, a)
  }

  ghost predicate Graph(b: State) {
    AllKnown(b) && Ranked(b) && Acyclic(b) && DestinationsKnown(b) && BackLinked(b)
  }

  /** Orders are the positions in which the instances were created. */
  ghost predicate Ordered(b: State) {
    && (forall i | i in b.instances :: 0 <= b.instances[i] < |b.instances|)
    && (forall i, j | i in b.instances && j in b.instances && i != j :: b.instances[i] != b.instances[j])
  }

  /** A job of queue q belongs there and carries the order of its node's instance. */
  ghost predicate JobsFit(b: State)
    requires AllKnown(b)
  {
    forall q, j | q in b.queues && j in b.queues[q].jobs ::
      j.node in b.nodes && b.nodes[j.node].decl.queueName == q && j.priority == Order(b, j.node)
  }

  /** Nothing runs early: whatever is queued, delayed, claimed or completed has all its sources completed. */
  ghost predicate Due(b: State) {
    && (forall q, j | q in b.queues && j in b.queues[q].jobs :: j.node in b.nodes && SourcesDone(b, j.node))
    && (forall j | j in b.future :: j.node in b.nodes && SourcesDone(b, j.node))
    && (forall w, n | w in b.workers && n in b.workers[w].claimedWork :: n in b.nodes && SourcesDone(b, n))
    && (forall n | n in b.nodes && b.nodes[n].completed :: SourcesDone(b, n))
  }

  ghost predicate Coherent(b: State) {
    forall w | w in b.workers ::
      b.workers[w].allowedQueues == {} || b.workers[w].allowedQueues == Allowed(b, b.workers[w])
  }

  ghost predicate Sound(b: State) {
    Graph(b) && Ordered(b) && JobsFit(b) && Due(b) && Coherent(b)
  }

  lemma SoundBasics(b: State)
    requires Sound(b)
    ensures AllKnown(b) && DestinationsKnown(b) && SourcesKnown(b) && ClaimsKnown(b)
  {
    hide Ordered, JobsFit, Coherent, Ranked, BackLinked, SourcesDone;
  }

  // ---------------------------------------------------------------- what the graph depends on

  ghost predicate SameGraph(b: State, c: State) {
    && c.nodes.Keys == b.nodes.Keys && c.created == b.created && c.instances == b.instances
    && forall n | n in b.nodes ::
         c.nodes[n].decl == b.nodes[n].decl && c.nodes[n].rank == b.nodes[n].rank
         && c.nodes[n].destinations == b.nodes[n].destinations
  }

  lemma GraphStable(b: State, c: State)
    requires Graph(b) && SameGraph(b, c)
    ensures Graph(c)
  {
    assert AllKnown(c) && DestinationsKnown(c) by { hide Ranked, Acyclic, BackLinked; }
    assert Ranked(c) by { hide Acyclic, BackLinked, AllKnown, DestinationsKnown; }
    assert Acyclic(c) by { hide Ranked, BackLinked, AllKnown, DestinationsKnown; }
    assert BackLinked(c) by { hide Ranked, Acyclic, AllKnown, DestinationsKnown; }
  }

  /** No declaration changes, no completion is undone. */
  ghost predicate Extends(b: State, c: State) {
    forall n | n in b.nodes ::
      n in c.nodes && c.nodes[n].decl == b.nodes[n].decl && c.nodes[n].rank == b.nodes[n].rank
      && (b.nodes[n].completed ==> c.nodes[n].completed)
  }

  lemma SourcesStayDone(b: State, c: State, n: Id)
    requires Extends(b, c) && n in b.nodes && SourcesDone(b, n)
    ensures SourcesDone(c, n)
  {
  }

  // ---------------------------------------------------------------- changes that Sound does not notice

  /** Only retry, lease and failure fields of nodes differ. */
  ghost predicate SameShape(b: State, c: State) {
    SameGraph(b, c) && forall n | n in b.nodes ::
      c.nodes[n].completed == b.nodes[n].completed && c.nodes[n].resolvedValue == b.nodes[n].resolvedValue
  }

  ghost predicate FewerQueued(b: State, c: State) {
    c.queues.Keys == b.queues.Keys
    && forall q, j | q in b.queues && j in c.queues[q].jobs :: j in b.queues[q].jobs
  }

  ghost predicate FewerDelayed(b: State, c: State) {
    forall j | j in c.future :: j in b.future
  }

  ghost predicate SameTaints(b: State, c: State) {
    c.queues.Keys == b.queues.Keys && forall q | q in b.queues :: c.queues[q].taint == b.queues[q].taint
  }

  ghost predicate FewerClaims(b: State, c: State) {
    forall w, n | w in c.workers && n in c.workers[w].claimedWork ::
      w in b.workers && n in b.workers[w].claimedWork
  }

  lemma SourcesDoneStable(b: State, c: State, n: Id)
    requires SameShape(b, c) && n in b.nodes
    ensures SourcesDone(c, n) == SourcesDone(b, n)
  {
  }

  lemma SameNodesSameSources(b: State, c: State, n: Id)
    requires c.nodes == b.nodes && n in b.nodes
    ensures SourcesDone(c, n) == SourcesDone(b, n)
  {
  }

  lemma DueStable(b: State, c: State)
    requires Due(b) && SameShape(b, c) && FewerQueued(b, c) && FewerDelayed(b, c) && FewerClaims(b, c)
    ensures Due(c)
  {
    forall n | n in b.nodes
      ensures SourcesDone(c, n) == SourcesDone(b, n)
    {
      SourcesDoneStable(b, c, n);
    }
    hide SourcesDone;
  }

  lemma JobsFitStable(b: State, c: State)
    requires AllKnown(b) && AllKnown(c) && JobsFit(b) && SameGraph(b, c) && FewerQueued(b, c)
    ensures JobsFit(c)
  {
  }

  lemma CoherentStable(b: State, c: State)
    requires Coherent(b) && SameTaints(b, c) && c.workers == b.workers
    ensures Coherent(c)
  {
  }

  lemma TweakKeepsSound(b: State, n: Id, node: Node)
    requires Sound(b) && n in b.nodes
    requires SameShape(b, b.(nodes := b.nodes[n := node]))
    ensures Sound(b.(nodes := b.nodes[n := node]))
  {
    hide Ranked, Acyclic, BackLinked, DestinationsKnown, JobsFit, Due, Coherent;
    var c := b.(nodes := b.nodes[n := node]);
    GraphStable(b, c);
    JobsFitStable(b, c);
    DueStable(b, c);
    CoherentStable(b, c);
  }

  /** A worker's claims may shrink, its ping and its fence may move, its cache may be dropped or filled. */
  ghost predicate LeaseTweak(b: State, v: Worker, w: Worker) {
    && w == v.(claimedWork := w.claimedWork, lastPing := w.lastPing,
               invalidated := w.invalidated, allowedQueues := w.allowedQueues)
    && (forall n | n in w.claimedWork :: n in v.claimedWork)
    && (w.allowedQueues == v.allowedQueues || w.allowedQueues == {} || w.allowedQueues == Allowed(b, v))
  }

  lemma WorkerTweakKeepsCoherent(b: State, w: Id, worker: Worker)
    requires Coherent(b) && w in b.workers && LeaseTweak(b, b.workers[w], worker)
    ensures Coherent(b.(workers := b.workers[w := worker]))
  {
  }

  lemma WorkerTweakKeepsSound(b: State, w: Id, worker: Worker)
    requires Sound(b) && w in b.workers && LeaseTweak(b, b.workers[w], worker)
    ensures Sound(b.(workers := b.workers[w := worker]))
  {
    hide Ranked, Acyclic, BackLinked, DestinationsKnown, JobsFit, Due, Coherent;
    var c := b.(workers := b.workers[w := worker]);
    GraphStable(b, c);
    JobsFitStable(b, c);
    DueStable(b, c);
    WorkerTweakKeepsCoherent(b, w, worker);
  }

  // ---------------------------------------------------------------- EnqueueNode

  lemma WithQueueLosesNothing(b: State, q: string, taint: string)
    ensures var c := WithQueue(b, q, taint);
      && c.nodes == b.nodes && c.future == b.future && FewerClaims(b, c)
      && forall p, j | p in c.queues && j in c.queues[p].jobs :: p in b.queues && j in b.queues[p].jobs
  {
  }

  lemma DueWithSameNodes(b: State, c: State)
    requires Due(b) && c.nodes == b.nodes && c.future == b.future && FewerClaims(b, c)
    requires forall p, j | p in c.queues && j in c.queues[p].jobs :: p in b.queues && j in b.queues[p].jobs
    ensures Due(c)
  {
    hide SourcesDone;
    forall n | n in b.nodes
      ensures SourcesDone(c, n) == SourcesDone(b, n)
    {
      SameNodesSameSources(b, c, n);
    }
  }

  lemma WithQueueKeepsDue(b: State, q: string, taint: string)
    requires Due(b)
    ensures Due(WithQueue(b, q, taint))
  {
    hide Due, WithQueue, FewerClaims;
    WithQueueLosesNothing(b, q, taint);
    DueWithSameNodes(b, WithQueue(b, q, taint));
  }

  lemma WithQueueKeepsJobsFit(b: State, q: string, taint: string)
    requires AllKnown(b) && JobsFit(b)
    ensures AllKnown(WithQueue(b, q, taint)) && JobsFit(WithQueue(b, q, taint))
  {
  }

  lemma WithQueueKeepsSound(b: State, q: string, taint: string)
    requires Sound(b)
    ensures Sound(WithQueue(b, q, taint))
  {
    hide Ranked, Acyclic, BackLinked, DestinationsKnown, JobsFit, Due, Allowed;
    var c := WithQueue(b, q, taint);
    GraphStable(b, c);
    WithQueueKeepsJobsFit(b, q, taint);
    WithQueueKeepsDue(b, q, taint);
  }

  function AddJob(b: State, n: Id): State
    requires AllKnown(b) && n in b.nodes && b.nodes[n].decl.queueName in b.queues
  {
    var q := b.nodes[n].decl.queueName;
    b.(queues := b.queues[q := b.queues[q].(jobs := b.queues[q].jobs + multiset{Job(n, Order(b, n))})])
  }

  lemma PushKeepsDue(b: State, n: Id)
    requires AllKnown(b) && n in b.nodes && b.nodes[n].decl.queueName in b.queues
    requires Due(b) && SourcesDone(b, n)
    ensures Due(AddJob(b, n))
  {
  }

  lemma PushKeepsJobsFit(b: State, n: Id)
    requires AllKnown(b) && n in b.nodes && b.nodes[n].decl.queueName in b.queues
    requires JobsFit(b)
    ensures AllKnown(AddJob(b, n)) && JobsFit(AddJob(b, n))
  {
  }

  lemma PushKeepsSound(b: State, n: Id)
    requires Sound(b) && n in b.nodes && SourcesDone(b, n) && b.nodes[n].decl.queueName in b.queues
    ensures Sound(AddJob(b, n))
  {
    hide Ranked, Acyclic, BackLinked, DestinationsKnown, JobsFit, Due, Coherent;
    var c := AddJob(b, n);
    GraphStable(b, c);
    PushKeepsDue(b, n);
    PushKeepsJobsFit(b, n);
    CoherentStable(b, c);
  }

  lemma MakeReadyKeepsSound(b: State, n: Id)
    requires Sound(b) && n in b.nodes && SourcesDone(b, n)
    ensures Sound(MakeReady(b, n))
  {
    hide Sound, SourcesDone, AllKnown, FewerClaims;
    SoundBasics(b);
    var decl := b.nodes[n].decl;
    WithQueueKeepsSound(b, decl.queueName, decl.taintName);
    var c := WithQueue(b, decl.queueName, decl.taintName);
    SoundBasics(c);
    TweakKeepsSound(c, n, c.nodes[n].(nextRetry := -1));
    var d := c.(nodes := c.nodes[n := c.nodes[n].(nextRetry := -1)]);
    SoundBasics(d);
    SourcesDoneStable(b, d, n);
    PushKeepsSound(d, n);
    assert MakeReady(b, n) == AddJob(d, n) by { hide SameShape; }
  }

  lemma DelayKeepsDue(b: State, n: Id)
    requires Due(b) && n in b.nodes && SourcesDone(b, n)
    ensures Due(Delay(b, n))
  {
  }

  lemma DelayKeepsSound(b: State, n: Id)
    requires Sound(b) && n in b.nodes && SourcesDone(b, n)
    ensures Sound(Delay(b, n))
  {
    hide Ranked, Acyclic, BackLinked, DestinationsKnown, JobsFit, Due, Coherent;
    var c := Delay(b, n);
    GraphStable(b, c);
    DelayKeepsDue(b, n);
    JobsFitStable(b, c);
    CoherentStable(b, c);
  }

  lemma EnqueueKeepsSound(b: State, n: Id, now: int)
    requires Sound(b) && n in b.nodes && SourcesDone(b, n)
    ensures Sound(EnqueueNode(b, n, now))
  {
    hide Graph, Ordered, JobsFit, Due, Coherent, MakeReady, Delay;
    if MustWait(b.nodes[n], now) {
      DelayKeepsSound(b, n);
    } else {
      MakeReadyKeepsSound(b, n);
    }
  }

  /** Nodes differ in their retry times only. */
  ghost predicate SameButRetry(b: State, c: State) {
    && c.nodes.Keys == b.nodes.Keys && c.created == b.created && c.instances == b.instances
    && forall n | n in b.nodes :: c.nodes[n] == b.nodes[n].(nextRetry := c.nodes[n].nextRetry)
  }

  lemma EnqueueKeepsNodes(b: State, n: Id, now: int)
    requires AllKnown(b) && n in b.nodes
    ensures SameButRetry(b, EnqueueNode(b, n, now))
  {
  }

  lemma SameButRetryShape(b: State, c: State)
    requires SameButRetry(b, c)
    ensures SameShape(b, c)
  {
  }

  // ---------------------------------------------------------------- resolving

  lemma {:induction false} NotifyAllKeepsNodes(b: State, ds: seq<Id>, now: int)
    requires AllKnown(b) && forall d | d in ds :: d in b.nodes
    ensures SameButRetry(b, NotifyAll(b, ds, now))
  {
    if ds != [] {
      var init, d := ds[..|ds| - 1], ds[|ds| - 1];
      NotifyAllKeepsNodes(b, init, now);
      EnqueueKeepsNodes(NotifyAll(b, init, now), d, now);
      hide EnqueueNode, SourcesDone;
    }
  }

  lemma {:induction false} NotifyAllKeepsSound(b: State, ds: seq<Id>, now: int)
    requires Sound(b) && forall d | d in ds :: d in b.nodes
    ensures Sound(NotifyAll(b, ds, now))
  {
    hide Ranked, Acyclic, BackLinked, DestinationsKnown, Ordered, JobsFit, Due, Coherent, EnqueueNode, SourcesDone;
    if ds != [] {
      var init, d := ds[..|ds| - 1], ds[|ds| - 1];
      NotifyAllKeepsSound(b, init, now);
      var c := NotifyAll(b, init, now);
      if SourcesDone(c, d) {
        EnqueueKeepsSound(c, d, now);
      }
    }
  }

  lemma WithoutIsLess(ns: seq<Id>, n: Id)
    ensures forall m :: m in Without(ns, n) <==> m in ns && m != n
  {
    forall m
      ensures m in Without(ns, n) <==> m in ns && m != n
    {
      FilterMember(ns, (k: Id) => k != n, m);
    }
  }

  lemma ReleaseKeepsSound(b: State, n: Id)
    requires Sound(b) && n in b.nodes
    ensures Sound(ReleaseWorkerLock(b, n)) && SameShape(b, ReleaseWorkerLock(b, n))
  {
    hide Graph, Ordered, JobsFit, Due, Coherent;
    TweakKeepsSound(b, n, Unclaim(b.nodes[n]));
    var c := b.(nodes := b.nodes[n := Unclaim(b.nodes[n])]);
    var holder := b.nodes[n].dequeueWorker;
    if holder.Some? && holder.value in b.workers {
      var worker := b.workers[holder.value];
      WithoutIsLess(worker.claimedWork, n);
      WorkerTweakKeepsSound(c, holder.value, worker.(claimedWork := Without(worker.claimedWork, n)));
    }
  }

  lemma MarkKeepsDue(b: State, n: Id, value: Obj)
    requires Due(b) && n in b.nodes && SourcesDone(b, n)
    ensures Due(MarkCompleted(b, n, value))
  {
    var c := MarkCompleted(b, n, value);
    forall m | m in b.nodes && SourcesDone(b, m)
      ensures SourcesDone(c, m)
    {
    }
    hide SourcesDone;
  }

  lemma MarkKeepsSound(b: State, n: Id, value: Obj)
    requires Sound(b) && n in b.nodes && SourcesDone(b, n)
    ensures Sound(MarkCompleted(b, n, value)) && Extends(b, MarkCompleted(b, n, value))
  {
    hide Ranked, Acyclic, BackLinked, DestinationsKnown, JobsFit, Due, Coherent;
    var c := MarkCompleted(b, n, value);
    GraphStable(b, c);
    JobsFitStable(b, c);
    MarkKeepsDue(b, n, value);
    CoherentStable(b, c);
  }

  lemma ResolveKeepsSound(b: State, n: Id, value: Obj, now: int)
    requires Sound(b) && n in b.nodes && SourcesDone(b, n)
    ensures AllKnown(b) && DestinationsKnown(b)
    ensures Sound(ExecutionDidResolve(b, n, value, now))
  {
    assert AllKnown(b) && DestinationsKnown(b);
    hide Graph, Ordered, JobsFit, Due, Coherent;
    MarkKeepsSound(b, n, value);
    var c := MarkCompleted(b, n, value);
    ReleaseKeepsSound(c, n);
    NotifyAllKeepsSound(ReleaseWorkerLock(c, n), b.nodes[n].destinations, now);
  }

  // ---------------------------------------------------------------- failing

  lemma SameShapeTransitive(b: State, c: State, d: State)
    requires SameShape(b, c) && SameShape(c, d)
    ensures SameShape(b, d)
  {
  }

  /** Replacing a node by one of the same shape. */
  lemma TweakShape(b: State, n: Id, node: Node)
    requires n in b.nodes
    requires node == b.nodes[n].(dequeueTimestamp := node.dequeueTimestamp, dequeueWorker := node.dequeueWorker,
                                 nextRetry := node.nextRetry, policy := node.policy, failures := node.failures)
    ensures SameShape(b, b) && SameShape(b, b.(nodes := b.nodes[n := node]))
  {
  }

  lemma BackoffKeepsSound(b: State, n: Id, jitter: real, now: int)
    requires Sound(b) && n in b.nodes && SourcesDone(b, n)
    ensures AllKnown(b)
    ensures Sound(BackoffNode(b, n, jitter, now)) && SameShape(b, BackoffNode(b, n, jitter, now))
  {
    hide Sound, AllKnown, EnqueueNode, Wait, SourcesDone, SameButRetry, SameShape, Advance;
    SoundBasics(b);
    var node := b.nodes[n];
    if node.policy.Some? {
      var wait := Wait(node.policy.value, jitter);
      var asked := node.(policy := Some(Advance(node.policy.value)));
      if wait == -1 {
        TweakShape(b, n, asked);
        TweakKeepsSound(b, n, asked);
      } else {
        var again := asked.(nextRetry := now + wait);
        var c := b.(nodes := b.nodes[n := again]);
        TweakShape(b, n, again);
        TweakKeepsSound(b, n, again);
        SoundBasics(c);
        SourcesDoneStable(b, c, n);
        EnqueueKeepsSound(c, n, now);
        EnqueueKeepsNodes(c, n, now);
        SameButRetryShape(c, EnqueueNode(c, n, now));
        SameShapeTransitive(b, c, EnqueueNode(c, n, now));
      }
    } else {
      TweakShape(b, n, node);
    }
  }

  lemma FailKeepsSound(b: State, n: Id, traceback: string, jitter: real, now: int)
    requires Sound(b) && n in b.nodes && SourcesDone(b, n)
    ensures AllKnown(b) && Sound(ExecutionDidFail(b, n, traceback, jitter, now))
    ensures SameShape(b, ExecutionDidFail(b, n, traceback, jitter, now))
  {
    hide Ranked, Acyclic, BackLinked, DestinationsKnown, JobsFit, Due, Coherent, BackoffNode, ReleaseWorkerLock,
      SourcesDone;
    ReleaseKeepsSound(b, n);
    var c := ReleaseWorkerLock(b, n);
    var d := RecordFailure(c, n, traceback);
    assert SameShape(c, d);
    hide SameShape;
    TweakKeepsSound(c, n, c.nodes[n].(failures := c.nodes[n].failures + [traceback]));
    SameShapeTransitive(b, c, d);
    SourcesDoneStable(b, d, n);
    BackoffKeepsSound(d, n, jitter, now);
    SameShapeTransitive(b, d, BackoffNode(d, n, jitter, now));
  }
}
