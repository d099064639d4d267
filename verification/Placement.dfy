/** Where a node is: how often it sits in its queue and in the future heap, and what each operation does to that. */
module Placement {
  import opened Basics
  import opened Inspection
  import opened Model
  import opened Safety

  /** How often the node is ready in its own queue. */
  function ReadyCount(b: State, n: Id): nat
    requires AllKnown(b) && n in b.nodes
  {
    var q := b.nodes[n].decl.queueName;
    if q in b.queues then b.queues[q].jobs[Job(n, Order(b, n))] else 0
  }

  /** How often the node waits in the future heap. */
  function DelayedCount(b: State, n: Id): nat
    requires n in b.nodes
  {
    b.future[Job(n, b.nodes[n].nextRetry)]
  }

  function One(x: bool): nat {
    if x then 1 else 0
  }

  // ---------------------------------------------------------------- enqueueing

  /** Everything but queues and nodes is as before, up to dropped caches; no queue goes away. */
  ghost predicate Quiet(b: State, c: State) {
    && c.created == b.created && c.instances == b.instances && c.future == b.future
    && SameWorkers(b, c) && b.queues.Keys <= c.queues.Keys
  }

  lemma QuietTransitive(b: State, c: State, d: State)
    requires Quiet(b, c) && Quiet(c, d)
    ensures Quiet(b, d)
  {
  }

  /** A node that need not wait enters its queue once; its retry time is cleared. */
  lemma ReadyEffect(b: State, n: Id, now: int)
    requires AllKnown(b) && n in b.nodes && !MustWait(b.nodes[n], now)
    ensures var c := EnqueueNode(b, n, now);
      && Quiet(b, c)
      && c.nodes == b.nodes[n := b.nodes[n].(nextRetry := -1)]
      && c.queues.Keys == b.queues.Keys + {b.nodes[n].decl.queueName}
  {
  }

  lemma ReadyEffectCount(b: State, n: Id, now: int, m: Id)
    requires AllKnown(b) && n in b.nodes && !MustWait(b.nodes[n], now) && m in b.nodes
    ensures ReadyCount(EnqueueNode(b, n, now), m) == ReadyCount(b, m) + One(m == n)
  {
  }

  lemma SameQueuesSameReady(b: State, c: State, m: Id)
    requires AllKnown(b) && AllKnown(c) && m in b.nodes && m in c.nodes
    requires c.queues == b.queues && c.nodes[m].decl == b.nodes[m].decl && Order(c, m) == Order(b, m)
    ensures ReadyCount(c, m) == ReadyCount(b, m)
  {
  }

  // ---------------------------------------------------------------- notifying destinations

  /** Ready nodes have no retry time pending. */
  ghost predicate Prompt(b: State, ds: seq<Id>) {
    forall d | d in ds :: d in b.nodes && (SourcesDone(b, d) ==> b.nodes[d].nextRetry == -1)
  }

  lemma {:induction false} NotifyEffect(b: State, ds: seq<Id>, now: int)
    requires AllKnown(b) && Prompt(b, ds)
    ensures Quiet(b, NotifyAll(b, ds, now)) && NotifyAll(b, ds, now).nodes == b.nodes
  {
    if ds != [] {
      var init, d := ds[..|ds| - 1], ds[|ds| - 1];
      NotifyEffect(b, init, now);
      var c := NotifyAll(b, init, now);
      if SourcesDone(c, d) {
        hide Quiet;
        ReadyEffect(c, d, now);
        QuietTransitive(b, c, EnqueueNode(c, d, now));
      }
    }
  }

  /**
   * A notified node is queued once per mention if all its sources are complete, and not at all otherwise. So a
   * node that lists a source twice is queued twice when that source completes last.
   */
  lemma {:induction false} NotifyCount(b: State, ds: seq<Id>, now: int, m: Id)
    requires AllKnown(b) && Prompt(b, ds) && m in b.nodes
    ensures ReadyCount(NotifyAll(b, ds, now), m)
         == ReadyCount(b, m) + if SourcesDone(b, m) then Count(ds, m) else 0
  {
    if ds != [] {
      var init, d := ds[..|ds| - 1], ds[|ds| - 1];
      NotifyCount(b, init, now, m);
      NotifyEffect(b, init, now);
      assert ds == init + [d];
      CountAppend(init, d, m);
      var c := NotifyAll(b, init, now);
      SameNodesSameSources(b, c, d);
      hide SourcesDone, EnqueueNode, ReadyCount, Quiet;
      if SourcesDone(c, d) {
        ReadyEffectCount(c, d, now, m);
      }
    }
  }

  // ---------------------------------------------------------------- reclaiming

  /** Claimed nodes of a worker: no retry time pending. */
  ghost predicate Reclaimable(b: State, ns: seq<Id>) {
    forall n | n in ns :: n in b.nodes && b.nodes[n].nextRetry == -1
  }

  /** What reclaiming makes of the nodes: the listed ones are unclaimed. */
  ghost predicate Unclaimed(b: State, c: State, ns: seq<Id>) {
    c.nodes.Keys == b.nodes.Keys
    && forall m | m in b.nodes :: c.nodes[m] == if m in ns then Unclaim(b.nodes[m]) else b.nodes[m]
  }

  lemma ReclaimOneEffect(b: State, n: Id, now: int)
    requires AllKnown(b) && n in b.nodes && b.nodes[n].nextRetry == -1
    ensures Quiet(b, Reclaim(b, n, now)) && Reclaim(b, n, now).nodes == b.nodes[n := Unclaim(b.nodes[n])]
  {
  }

  lemma {:induction false} ReclaimEffect(b: State, ns: seq<Id>, now: int)
    requires AllKnown(b) && Reclaimable(b, ns)
    ensures Quiet(b, ReclaimAll(b, ns, now)) && Unclaimed(b, ReclaimAll(b, ns, now), ns)
  {
    if ns != [] {
      var init, n := ns[..|ns| - 1], ns[|ns| - 1];
      assert ns == init + [n];
      ReclaimEffect(b, init, now);
      var c := ReclaimAll(b, init, now);
      hide Quiet, Reclaim;
      ReclaimOneEffect(c, n, now);
      QuietTransitive(b, c, Reclaim(c, n, now));
    }
  }

  /** Every mention of a node puts it back into its queue once; the future heap is not touched. */
  lemma {:induction false} ReclaimCount(b: State, ns: seq<Id>, now: int, m: Id)
    requires AllKnown(b) && Reclaimable(b, ns) && m in b.nodes
    ensures ReadyCount(ReclaimAll(b, ns, now), m) == ReadyCount(b, m) + Count(ns, m)
  {
    if ns != [] {
      hide ReadyCount, Reclaim, Quiet, ReclaimAll;
      var init, n := ns[..|ns| - 1], ns[|ns| - 1];
      assert ns == init + [n];
      CountAppend(init, n, m);
      ReclaimEffect(b, init, now);
      ReclaimCount(b, init, now, m);
      ReclaimLast(b, ns, now);
      ReclaimOneCount(ReclaimAll(b, init, now), n, now, m);
    }
  }

  lemma ReclaimOneCount(b: State, n: Id, now: int, m: Id)
    requires AllKnown(b) && n in b.nodes && m in b.nodes && b.nodes[n].nextRetry == -1
    ensures ReadyCount(Reclaim(b, n, now), m) == ReadyCount(b, m) + One(m == n)
  {
    hide ReadyCount, EnqueueNode;
    var d := b.(nodes := b.nodes[n := Unclaim(b.nodes[n])]);
    SameQueuesSameReady(b, d, m);
    ReadyEffectCount(d, n, now, m);
  }

  lemma ReclaimLast(b: State, ns: seq<Id>, now: int)
    requires AllKnown(b) && ns != [] && forall n | n in ns :: n in b.nodes
    ensures ReclaimAll(b, ns, now) == Reclaim(ReclaimAll(b, ns[..|ns| - 1], now), ns[|ns| - 1], now)
  {
  }
}
