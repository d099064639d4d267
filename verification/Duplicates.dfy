/**
 * A node that lists a source twice, as it does when a call receives the same promise in two arguments, is queued twice
 * when that source completes. Being queued once is exactly listing the last source once.
 */
module Duplicates {
  import opened Basics
  import opened Inspection
  import opened Model
  import opened Safety
  import opened Placement
  import opened OnceSteps
  import opened Runs

  // ---------------------------------------------------------------- pushing

  /** One push: into the queue of the node, or into the future heap while its retry time lies ahead. */
  ghost predicate Pushed(b: State, r: State, d: Id, times: nat, now: int)
    requires AllKnown(b) && d in b.nodes
  {
    var waits := MustWait(b.nodes[d], now);
    && AllKnown(r) && d in r.nodes
    && ReadyCount(r, d) == ReadyCount(b, d) + (if waits then 0 else times)
    && (forall t :: r.future[Job(d, t)] == b.future[Job(d, t)]
                  + if waits && t == b.nodes[d].nextRetry then times else 0)
    && r.nodes[d].nextRetry == if times > 0 && !waits then -1 else b.nodes[d].nextRetry
  }

  lemma EnqueuePushes(b: State, n: Id, now: int, d: Id)
    requires AllKnown(b) && n in b.nodes && d in b.nodes
    ensures Pushed(b, EnqueueNode(b, n, now), d, One(n == d), now)
  {
    if MustWait(b.nodes[n], now) {
      SameQueuesSameReady(b, Delay(b, n), d);
    } else {
      ReadyEffect(b, n, now);
      ReadyEffectCount(b, n, now, d);
      hide EnqueueNode;
    }
    hide ReadyCount;
  }

  lemma PushedMore(b: State, c: State, r: State, d: Id, times: nat, more: nat, now: int)
    requires AllKnown(b) && d in b.nodes && Pushed(b, c, d, times, now) && Pushed(c, r, d, more, now)
    ensures Pushed(b, r, d, times + more, now)
  {
    hide ReadyCount, AllKnown;
  }

  /** Every mention of a node whose sources are complete pushes it once, wherever it belongs at that time. */
  lemma {:induction false} NotifyPushes(b: State, ds: seq<Id>, now: int, d: Id)
    requires AllKnown(b) && (forall x | x in ds :: x in b.nodes) && d in b.nodes
    ensures Pushed(b, NotifyAll(b, ds, now), d, if SourcesDone(b, d) then Count(ds, d) else 0, now)
  {
    hide Pushed, EnqueueNode, SourcesDone, AllKnown, SameButRetry;
    if ds == [] {
      NothingPushed(b, d, now);
    } else {
      var init, x := ds[..|ds| - 1], ds[|ds| - 1];
      assert ds == init + [x];
      CountAppend(init, x, d);
      NotifyPushes(b, init, now, d);
      NotifyAllKeepsNodes(b, init, now);
      var c := NotifyAll(b, init, now);
      SameButRetrySources(b, c, x);
      if SourcesDone(c, x) {
        EnqueuePushes(c, x, now, d);
        PushedMore(b, c, EnqueueNode(c, x, now), d, if SourcesDone(b, d) then Count(init, d) else 0, One(x == d), now);
      }
    }
  }

  lemma NothingPushed(b: State, d: Id, now: int)
    requires AllKnown(b) && d in b.nodes
    ensures Pushed(b, b, d, 0, now)
  {
  }

  lemma SameButRetrySources(b: State, c: State, n: Id)
    requires SameButRetry(b, c) && n in b.nodes
    ensures SourcesDone(c, n) == SourcesDone(b, n)
  {
  }

  lemma PushedFrom(b: State, c: State, r: State, d: Id, times: nat, now: int)
    requires AllKnown(b) && AllKnown(c) && d in b.nodes && d in c.nodes && Pushed(c, r, d, times, now)
    requires ReadyCount(c, d) == ReadyCount(b, d) && c.future == b.future
    requires c.nodes[d].nextRetry == b.nodes[d].nextRetry
    ensures Pushed(b, r, d, times, now)
  {
  }

  /** What answering does before it notifies: n is completed and free; queues and future heap stay. */
  lemma AnsweredShape(b: State, n: Id, value: Obj)
    requires AllKnown(b) && n in b.nodes
    ensures var c := ReleaseWorkerLock(MarkCompleted(b, n, value), n);
      && AllKnown(c) && c.queues == b.queues && c.future == b.future && c.instances == b.instances
      && c.nodes.Keys == b.nodes.Keys
      && forall m | m in b.nodes ::
           && c.nodes[m].decl == b.nodes[m].decl && c.nodes[m].nextRetry == b.nodes[m].nextRetry
           && SourcesDone(c, m) == SourcesDone(MarkCompleted(b, n, value), m)
  {
    var a := MarkCompleted(b, n, value);
    var c := ReleaseWorkerLock(a, n);
    ReleaseNodes(a, n);
    forall m | m in b.nodes
      ensures SourcesDone(c, m) == SourcesDone(a, m)
    {
      SameHistorySources(a, c, m);
    }
    hide SourcesDone;
  }

  /**
   * An answer for n, whether its first or not, pushes a node once per mention among the destinations of n if all the
   * sources of that node are then complete, and does not push it at all otherwise.
   */
  lemma AnswerPushes(b: State, n: Id, value: Obj, now: int, d: Id)
    requires AllKnown(b) && DestinationsKnown(b) && n in b.nodes && d in b.nodes
    ensures var times := if SourcesDone(MarkCompleted(b, n, value), d) then Count(b.nodes[n].destinations, d) else 0;
      Pushed(b, ExecutionDidResolve(b, n, value, now), d, times, now)
  {
    hide AllKnown, ReadyCount, NotifyAll, SourcesDone, ReleaseWorkerLock, Pushed;
    AnsweredShape(b, n, value);
    var c, ds := ReleaseWorkerLock(MarkCompleted(b, n, value), n), b.nodes[n].destinations;
    SameQueuesSameReady(b, c, d);
    assert forall x | x in ds :: x in c.nodes;
    NotifyPushes(c, ds, now, d);
    PushedFrom(b, c, NotifyAll(c, ds, now), d, if SourcesDone(c, d) then Count(ds, d) else 0, now);
  }

  // ---------------------------------------------------------------- the last source completes

  /** d waits for n alone. */
  ghost predicate WaitsOnlyFor(b: State, n: Id, d: Id)
    requires n in b.nodes && d in b.nodes
  {
    !SourcesDone(b, d) && forall s | s in b.nodes[d].decl.sources && s != n :: s in b.nodes && b.nodes[s].completed
  }

  lemma LastSourceCompletes(b: State, n: Id, value: Obj, d: Id)
    requires n in b.nodes && d in b.nodes && WaitsOnlyFor(b, n, d)
    ensures SourcesDone(MarkCompleted(b, n, value), d)
  {
  }

  /** No queue and no heap has a job for d. */
  ghost predicate NoJobs(b: State, d: Id)
    requires AllKnown(b) && d in b.nodes
  {
    ReadyCount(b, d) == 0 && forall t :: b.future[Job(d, t)] == 0
  }

  lemma WaitingHasNoJobs(b: State, d: Id)
    requires AllKnown(b) && Due(b) && d in b.nodes && !SourcesDone(b, d)
    ensures NoJobs(b, d)
  {
  }

  /**
   * When the last source of a waiting node completes, the node, of which there was no job before, is pushed once per
   * mention of that source. So it is pushed once if and only if the source is listed once.
   */
  lemma QueuedOnceIffListedOnce(b: State, n: Id, value: Obj, now: int, d: Id)
    requires Sound(b) && n in b.nodes && d in b.nodes && WaitsOnlyFor(b, n, d)
    ensures AllKnown(b) && DestinationsKnown(b) && NoJobs(b, d)
    ensures Pushed(b, ExecutionDidResolve(b, n, value, now), d, Count(b.nodes[d].decl.sources, n), now)
  {
    hide AllKnown, DestinationsKnown, ExecutionDidResolve, Pushed, SourcesDone, MarkCompleted, NoJobs, Coherent,
         JobsFit,
         Ordered, Ranked, Acyclic;
    SoundBasics(b);
    assert Due(b) && BackLinked(b);
    hide Sound, Due, Graph;
    LastSourceCompletes(b, n, value, d);
    WaitingHasNoJobs(b, d);
    AnswerPushes(b, n, value, now, d);
  }

  // ---------------------------------------------------------------- answering twice

  /** No job for d came in. */
  ghost predicate SameJobs(b: State, r: State, d: Id)
    requires AllKnown(b) && AllKnown(r) && d in b.nodes && d in r.nodes
  {
    ReadyCount(r, d) == ReadyCount(b, d) && forall t :: r.future[Job(d, t)] == b.future[Job(d, t)]
  }

  lemma SameJobsIffNone(b: State, r: State, d: Id, times: nat, now: int)
    requires AllKnown(b) && d in b.nodes && Pushed(b, r, d, times, now)
    ensures SameJobs(b, r, d) <==> times == 0
  {
    if SameJobs(b, r, d) {
      assert r.future[Job(d, b.nodes[d].nextRetry)] == b.future[Job(d, b.nodes[d].nextRetry)];
    }
    hide ReadyCount, AllKnown;
  }

  /**
   * The server does not ask whether a node is already completed. A second answer for it pushes every destination again,
   * once per mention, whose sources are all complete: onto its queue, or onto the future heap if it is waiting out a
   * retry time. So no queue and no heap gets a job for d if and only if d is no destination with complete sources.
   */
  lemma SecondAnswerQueuesAgain(b: State, n: Id, value: Obj, now: int, d: Id)
    requires AllKnown(b) && DestinationsKnown(b) && n in b.nodes && d in b.nodes
    requires b.nodes[n].completed
    ensures var r := ExecutionDidResolve(b, n, value, now);
      && Pushed(b, r, d, if SourcesDone(b, d) then Count(b.nodes[n].destinations, d) else 0, now)
      && (SameJobs(b, r, d) <==> !(d in b.nodes[n].destinations && SourcesDone(b, d)))
  {
    hide AllKnown, DestinationsKnown, ExecutionDidResolve, SameJobs, Pushed;
    SameHistorySources(b, MarkCompleted(b, n, value), d);
    hide SourcesDone, MarkCompleted;
    AnswerPushes(b, n, value, now, d);
    var times := if SourcesDone(b, d) then Count(b.nodes[n].destinations, d) else 0;
    SameJobsIffNone(b, ExecutionDidResolve(b, n, value, now), d, times, now);
  }
}
