/**
 * Where a queue's taint comes from: the node with which the queue was made. It never changes afterwards, so whether a
 * worker is kept from a node is decided by the first node of its queue.
 */
module Taints {
  import opened Basics
  import opened Retry
  import opened Inspection
  import opened Model
  import opened Safety
  import opened SafetyOfSteps
  import opened OnceSteps
  import opened Runs
  import opened Schedules
  import opened LateFailures
  import opened Ledger
  import opened LedgerSteps
  import opened LedgerHolds
  import opened OnceTicks
  import opened AsRequested
  import opened Histories
  import opened Scenarios

  /** Old queues keep their taints; a new queue has the taint of one of its own nodes. */
  ghost predicate TaintStep(b: State, c: State) {
    && (forall q | q in b.queues :: q in c.queues && c.queues[q].taint == b.queues[q].taint)
    && (forall n | n in b.nodes :: n in c.nodes && c.nodes[n].decl == b.nodes[n].decl)
    && forall q | q in c.queues && q !in b.queues :: TaintOfSome(c, q)
  }

  ghost predicate TaintOfSome(b: State, q: string)
    requires q in b.queues
  {
    exists n :: n in b.nodes && b.nodes[n].decl.queueName == q && b.nodes[n].decl.taintName == b.queues[q].taint
  }

  lemma TaintStepTransitive(b: State, c: State, d: State)
    requires TaintStep(b, c) && TaintStep(c, d)
    ensures TaintStep(b, d)
  {
    forall q | q in d.queues && q !in b.queues
      ensures TaintOfSome(d, q)
    {
      if q in c.queues {
        var n :| n in c.nodes && c.nodes[n].decl.queueName == q && c.nodes[n].decl.taintName == c.queues[q].taint;
        assert n in d.nodes;
      }
    }
  }

  lemma SameQueuesTaint(b: State, c: State)
    requires c.queues == b.queues && forall n | n in b.nodes :: n in c.nodes && c.nodes[n].decl == b.nodes[n].decl
    ensures TaintStep(b, c)
  {
  }

  lemma EnqueueTaint(b: State, n: Id, now: int)
    requires AllKnown(b) && n in b.nodes
    ensures TaintStep(b, EnqueueNode(b, n, now))
  {
    var c := EnqueueNode(b, n, now);
    assert n in c.nodes && c.nodes[n].decl == b.nodes[n].decl;
  }

  lemma {:induction false} NotifyTaint(b: State, ds: seq<Id>, now: int)
    requires AllKnown(b) && forall d | d in ds :: d in b.nodes
    ensures TaintStep(b, NotifyAll(b, ds, now))
  {
    if ds == [] {
      SameQueuesTaint(b, b);
    } else {
      hide EnqueueNode, SourcesDone, AllKnown, TaintStep;
      var init, d := ds[..|ds| - 1], ds[|ds| - 1];
      NotifyTaint(b, init, now);
      var c := NotifyAll(b, init, now);
      if SourcesDone(c, d) {
        EnqueueTaint(c, d, now);
        TaintStepTransitive(b, c, EnqueueNode(c, d, now));
      }
    }
  }

  lemma ReclaimTaint(b: State, n: Id, now: int)
    requires AllKnown(b) && n in b.nodes
    ensures TaintStep(b, Reclaim(b, n, now))
  {
    hide EnqueueNode, TaintOfSome;
    var c := b.(nodes := b.nodes[n := Unclaim(b.nodes[n])]);
    SameQueuesTaint(b, c);
    EnqueueTaint(c, n, now);
    TaintStepTransitive(b, c, Reclaim(b, n, now));
  }

  lemma {:induction false} ReclaimAllTaint(b: State, ns: seq<Id>, now: int)
    requires AllKnown(b) && forall n | n in ns :: n in b.nodes
    ensures TaintStep(b, ReclaimAll(b, ns, now))
  {
    if ns == [] {
      SameQueuesTaint(b, b);
    } else {
      hide Reclaim, AllKnown, TaintStep;
      var init, n := ns[..|ns| - 1], ns[|ns| - 1];
      ReclaimAllTaint(b, init, now);
      ReclaimTaint(ReclaimAll(b, init, now), n, now);
      TaintStepTransitive(b, ReclaimAll(b, init, now), ReclaimAll(b, ns, now));
    }
  }

  lemma CollectOneTaint(b: State, w: Id, now: int)
    requires AllKnown(b) && ClaimsKnown(b)
    ensures TaintStep(b, CollectWorker(b, w, now))
  {
    SameQueuesTaint(b, b);
    if w in b.workers && Stale(b.workers[w], now) {
      hide ReclaimAll, AllKnown, TaintStep;
      var c := ReclaimAll(b, b.workers[w].claimedWork, now);
      ReclaimAllTaint(b, b.workers[w].claimedWork, now);
      SameQueuesTaint(c, CollectWorker(b, w, now));
      TaintStepTransitive(b, c, CollectWorker(b, w, now));
    }
  }

  lemma {:induction false} CollectTaint(b: State, ws: seq<Id>, now: int)
    requires AllKnown(b) && ClaimsKnown(b)
    ensures TaintStep(b, CollectAll(b, ws, now))
  {
    if ws == [] {
      SameQueuesTaint(b, b);
    } else {
      hide CollectWorker, AllKnown, ClaimsKnown, TaintStep;
      var init, w := ws[..|ws| - 1], ws[|ws| - 1];
      CollectTaint(b, init, now);
      CollectOneTaint(CollectAll(b, init, now), w, now);
      TaintStepTransitive(b, CollectAll(b, init, now), CollectAll(b, ws, now));
    }
  }

  lemma {:induction false} DrainTaint(b: State, jobs: seq<Job>, now: int)
    requires AllKnown(b) && forall j | j in jobs :: j.node in b.nodes
    ensures TaintStep(b, DrainAll(b, jobs, now))
  {
    if jobs == [] {
      SameQueuesTaint(b, b);
    } else {
      hide EnqueueNode, AllKnown, TaintStep;
      var init, job := jobs[..|jobs| - 1], jobs[|jobs| - 1];
      DrainTaint(b, init, now);
      var c := DrainAll(b, init, now);
      UndelayKnows(c, job);
      SameQueuesTaint(c, Undelay(c, job));
      TaintStepTransitive(b, c, Undelay(c, job));
      EnqueueTaint(Undelay(c, job), job.node, now);
      TaintStepTransitive(b, Undelay(c, job), DrainAll(b, jobs, now));
    }
  }

  // ---------------------------------------------------------------- events

  lemma NewNodeTaint(b: State, n: Id, decl: Decl, policy: Option<Policy>, now: int)
    requires MayInsert(b, n, decl)
    ensures TaintStep(b, NewNode(b, n, decl, policy, now))
  {
    hide EnqueueNode, SourcesDone, TaintStep, AddBackLinks;
    var c := InsertNode(b, n, decl, policy);
    SameQueuesTaint(b, c);
    EnqueueTaint(c, n, now);
    TaintStepTransitive(b, c, EnqueueNode(c, n, now));
  }

  lemma ResolveTaint(b: State, n: Id, value: Obj, now: int)
    requires AllKnown(b) && DestinationsKnown(b) && n in b.nodes
    ensures TaintStep(b, ExecutionDidResolve(b, n, value, now))
  {
    hide NotifyAll, ReleaseWorkerLock, AllKnown, TaintStep;
    ReleaseIs(MarkCompleted(b, n, value), n);
    ReleaseKnows(b, n, value);
    var c := ReleaseWorkerLock(MarkCompleted(b, n, value), n);
    SameQueuesTaint(b, c);
    NotifyTaint(c, b.nodes[n].destinations, now);
    TaintStepTransitive(b, c, NotifyAll(c, b.nodes[n].destinations, now));
  }

  lemma CallTaint(s: System, e: Event)
    requires SoundSystem(s) && Enabled(s, e)
    requires e.action.CreateNode? || e.action.SubmitWork?
    ensures TaintStep(s.b, After(s, e))
  {
    hide Sound, Describes, NewNode, ExecutionDidResolve, TaintStep;
    SoundBasics(s.b);
    SameQueuesTaint(s.b, s.b);
    if e.action.CreateNode? {
      NewNodeTaint(s.b, e.action.node, e.action.decl, PolicyFor(e.action.retry), e.now);
    } else {
      AnswersKnown(s, e);
      KnownNode(s.b, e.action.message);
      ResolveTaint(s.b, e.action.message.identifier, e.action.value, e.now);
    }
  }

  lemma FailedDecl(node: Node, e: Event)
    requires e.action.SubmitFailure?
    ensures FailedNode(node, e.action.traceback, e.action.jitter, e.now).decl == node.decl
  {
  }

  lemma FailureTaint(s: System, e: Event)
    requires SoundSystem(s) && Enabled(s, e) && e.action.SubmitFailure? && s.clock >= 0
    ensures TaintStep(s.b, After(s, e))
  {
    hide SoundSystem, Enabled, After, Describes, ExecutionDidFail, TaintStep, FailedNode;
    FailureEvent(s, e);
    SameQueuesTaint(s.b, s.b);
    var n := e.action.message.identifier;
    FailureIsCharged(s.b, n, e.action.traceback, e.action.jitter, e.now);
    FailedDecl(s.b.nodes[n], e);
    SameQueuesTaint(s.b, ExecutionDidFail(s.b, n, e.action.traceback, e.action.jitter, e.now));
  }

  lemma TickTaint(s: System, e: Event)
    requires SoundSystem(s) && Enabled(s, e)
    requires e.action.CollectWorkers? || e.action.QueueFuture? || e.action.Stall?
    ensures TaintStep(s.b, After(s, e))
  {
    hide Sound, Describes, CollectAll, DrainAll, DrainRounds, NothingDue, Reenters, AllKnown, ClaimsKnown, NoDup,
      TaintStep;
    SoundBasics(s.b);
    match e.action {
      case CollectWorkers(order) => CollectTaint(s.b, order, e.now);
      case QueueFuture(jobs) => DrainTaint(s.b, jobs, e.now);
      case Stall(jobs, _) =>
        DrainTaint(s.b, jobs, e.now);
        SameQueuesTaint(DrainAll(s.b, jobs, e.now), After(s, e));
        TaintStepTransitive(s.b, DrainAll(s.b, jobs, e.now), After(s, e));
    }
  }

  lemma PlainTaint(s: System, e: Event)
    requires SoundSystem(s) && Enabled(s, e)
    requires e.action.CreateWorker? || e.action.CreateInstance? || e.action.Ping? || e.action.GetNothing?
    ensures TaintStep(s.b, After(s, e))
  {
    hide Sound, Describes, NothingFor, EffectiveAllowed, TaintStep;
    SameQueuesTaint(s.b, After(s, e));
  }

  lemma ClaimedTaint(b: State, w: Id, q: string, job: Job, now: int)
    requires w in b.workers && q in b.queues && job.node in b.nodes
    ensures TaintStep(b, Claim(b, w, q, job, now))
  {
    ClaimNodes(b, w, q, job, now);
    hide Claim;
  }

  lemma ClaimTaint(s: System, e: Event)
    requires SoundSystem(s) && Enabled(s, e) && e.action.GetWork?
    ensures TaintStep(s.b, After(s, e))
  {
    hide Describes, LeastJob, Sound, Claim, TaintStep;
    var a := e.action;
    LeastJobIsQueued(s.b, a.worker, a.queue, a.job);
    QueuedJobIsDue(s.b, a.queue, a.job);
    ClaimedTaint(s.b, a.worker, a.queue, a.job, e.now);
  }

  /** No event changes the taint of a queue that is there; a new queue gets that of one of its nodes. */
  lemma EventTaint(s: System, e: Event)
    requires SoundSystem(s) && Enabled(s, e) && s.clock >= 0
    ensures TaintStep(s.b, Next(s, e).b)
  {
    hide SoundSystem, Enabled, After, Next, TaintStep;
    NextIsAfter(s, e);
    match e.action {
      case CreateNode(_, _, _) => CallTaint(s, e);
      case SubmitWork(_, _, _) => CallTaint(s, e);
      case SubmitFailure(_, _, _, _) => FailureTaint(s, e);
      case GetWork(_, _, _) => ClaimTaint(s, e);
      case CollectWorkers(_) => TickTaint(s, e);
      case QueueFuture(_) => TickTaint(s, e);
      case Stall(_, _) => TickTaint(s, e);
      case _ => PlainTaint(s, e);
    }
  }

  lemma {:induction false} TaintsComeFromNodes(es: seq<Event>, s: System, q: string)
    requires Ends(es, s) && q in s.b.queues
    ensures TaintOfSome(s.b, q)
    decreases |es|
  {
    hide Ends, SoundSystem, Enabled, Next, TaintOfSome;
    if es == [] {
      NoQueues(s);
    } else {
      var init, e := es[..|es| - 1], es[|es| - 1];
      var before := EndsBefore(es, s);
      StateFollowsLedger(init, before);
      EventTaint(before, e);
      if q in before.b.queues {
        TaintsComeFromNodes(init, before, q);
        TaintStays(before.b, s.b, q);
      }
    }
  }

  lemma NoQueues(s: System)
    requires Ends([], s)
    ensures s.b.queues == map[]
  {
  }

  lemma TaintStays(b: State, c: State, q: string)
    requires TaintStep(b, c) && q in b.queues && TaintOfSome(b, q)
    ensures q in c.queues && TaintOfSome(c, q)
  {
  }

  /** Every request that creates a node for this queue names this taint. */
  predicate AgreeOn(es: seq<Event>, q: string, taint: string) {
    forall e | e in es :: e.action.CreateNode? && e.action.decl.queueName == q ==> e.action.decl.taintName == taint
  }

  /** If all requests for a queue name the same taint, that is the taint of the queue. */
  lemma QueueTaintIsRequested(es: seq<Event>, s: System, q: string, taint: string)
    requires Ends(es, s) && q in s.b.queues && AgreeOn(es, q, taint)
    ensures s.b.queues[q].taint == taint
  {
    hide Ends, NodeFollows;
    TaintsComeFromNodes(es, s, q);
    var n :| n in s.b.nodes && s.b.nodes[n].decl.queueName == q && s.b.nodes[n].decl.taintName == s.b.queues[q].taint;
    NodeRecord(es, s, n);
    CreationRecord(es, n, s.b.nodes[n]);
    CreationIsRequest(es, n);
  }

  lemma {:induction false} CreationIsRequest(es: seq<Event>, n: Id)
    requires CreationOf(es, n).Some?
    ensures exists e :: e in es && e.action.CreateNode? && e.action.node == n
                        && e.action.decl == CreationOf(es, n).value.decl
  {
    var init, last := es[..|es| - 1], es[|es| - 1];
    if last.action.CreateNode? && last.action.node == n {
      assert last in es;
    } else {
      CreationIsRequest(init, n);
    }
  }

  /** Where the requests for a queue agree, nobody is handed a node of it whose own taint it does not tolerate. */
  lemma NoWorkAgainstTaint(es: seq<Event>, s: System, e: Event, taint: string)
    requires Ends(es, s) && SoundSystem(s) && Enabled(s, e) && e.action.GetWork? && e.action.job.node in s.b.nodes
    requires AgreeOn(es, s.b.nodes[e.action.job.node].decl.queueName, taint)
    ensures ListsOf(es, e.action.worker).Some?
    ensures s.b.nodes[e.action.job.node].decl.taintName == taint
    ensures taint == "" || taint in ListsOf(es, e.action.worker).value.queueTolerations
  {
    hide SoundSystem, Enabled, Ends, NodeFollows;
    var n := e.action.job.node;
    HandOutAsRequested(es, s, e, "", e.action.job, 0, 0);
    NodeRecord(es, s, n);
    CreationRecord(es, n, s.b.nodes[n]);
    QueueTaintIsRequested(es, s, s.b.nodes[n].decl.queueName, taint);
    CreationIsRequest(es, n);
  }

  /**
   * A node of taint own in a queue of taint t: no worker that may use the queue fails to tolerate the node, whatever
   * its lists, if and only if the node has no taint or that of the queue.
   */
  lemma TaintHoldsIff(q: string, t: string, own: string)
    ensures (forall lists | Admits(lists, q, t) :: Admits(lists, q, own)) <==> own == "" || own == t
  {
    if own != "" && own != t {
      var lists := Lists([], [], [t]);
      assert Admits(lists, q, t) && !Admits(lists, q, own);
    }
  }

  /** A run in which worker v, who tolerates nothing, holds node c, whose own taint is "gpu". */
  lemma TaintedNodeIsHandedOut() returns (es: seq<Event>, s: System)
    ensures Ends(es, s) && "v" in s.b.workers && "c" in s.b.nodes
    ensures s.b.workers["v"].queueTolerations == [] && s.b.workers["v"].claimedWork == ["c"]
    ensures s.b.nodes["c"].dequeueWorker == Some("v") && s.b.nodes["c"].decl.taintName == "gpu"
  {
    hide Ends, Leads;
    var m;
    es, s, m := LaterAnsweredFirst(NO_VALUE);
    LeadsEnds(es, s);
    HeldAgainstTaint();
  }

  lemma HeldAgainstTaint()
    ensures var b := BothHeld();
      && "v" in b.workers && "c" in b.nodes && b.workers["v"].queueTolerations == []
      && b.workers["v"].claimedWork == ["c"] && b.nodes["c"].dequeueWorker == Some("v")
      && b.nodes["c"].decl.taintName == "gpu"
  {
    assert "w" != "v" by { assert "w"[0] != "v"[0]; }
    var none: seq<Id> := [];
    assert none + ["c"] == ["c"];
  }
}
