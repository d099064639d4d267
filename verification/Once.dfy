/**
 * The invariant of disciplined runs: each node is in exactly one place, so it is never queued twice, completes once,
 * and is held by one worker; retry times, future jobs and attempt counters agree with each other.
 */
module Once {
  import opened Basics
  import opened Retry
  import opened Inspection
  import opened Model
  import opened Placement

  // ---------------------------------------------------------------- the invariant

  /** More failures than its policy forgives: the node is abandoned. */
  ghost predicate Exhausted(node: Node) {
    |node.failures| > Budget(node.policy)
  }

  /** In how many places a node is: waiting, completed, abandoned, ready, delayed, claimed. */
  ghost function Tally(b: State, n: Id): nat
    requires AllKnown(b) && n in b.nodes
  {
    var node := b.nodes[n];
    One(!SourcesDone(b, n)) + One(node.completed) + One(Exhausted(node))
    + ReadyCount(b, n) + DelayedCount(b, n) + One(node.dequeueWorker.Some?)
  }

  ghost predicate Placed(b: State)
    requires AllKnown(b)
  {
    forall n | n in b.nodes :: Tally(b, n) == 1
  }

  /** Future jobs carry the retry time of their node, and every pending retry time has its job. */
  ghost predicate FutureFits(b: State) {
    && (forall j | j in b.future :: j.node in b.nodes && j.priority == b.nodes[j.node].nextRetry && j.priority > -1)
    && (forall n | n in b.nodes :: b.nodes[n].nextRetry == -1
          || (b.nodes[n].nextRetry > -1 && DelayedCount(b, n) >= 1))
  }

  /** A node names its holder exactly when it is on the holder's list; a fenced worker holds nothing. */
  ghost predicate Leased(b: State) {
    && (forall w | w in b.workers :: NoDup(b.workers[w].claimedWork)
          && (b.workers[w].invalidated ==> b.workers[w].claimedWork == []))
    && (forall w, n | w in b.workers && n in b.workers[w].claimedWork ::
          n in b.nodes && b.nodes[n].dequeueWorker == Some(w))
    && (forall n | n in b.nodes && b.nodes[n].dequeueWorker.Some? ::
          && b.nodes[n].dequeueWorker.value in b.workers
          && n in b.workers[b.nodes[n].dequeueWorker.value].claimedWork
          && b.nodes[n].decl.queueName in b.queues)
  }

  /** The attempt counter follows the failures up to the budget, which is exceeded by one at most. */
  ghost predicate WithinBudget(node: Node) {
    && |node.failures| <= Budget(node.policy) + 1
    && (node.policy.Some? ==>
          && Usable(node.policy.value)
          && node.policy.value.currentAttempt == Min(|node.failures|, Budget(node.policy)))
  }

  ghost predicate Budgeted(b: State) {
    forall n | n in b.nodes :: WithinBudget(b.nodes[n])
  }

  ghost predicate Distinct(b: State) {
    forall n | n in b.nodes :: NoDup(b.nodes[n].decl.sources)
  }

  ghost predicate OnceEach(b: State)
    requires AllKnown(b)
  {
    Placed(b) && FutureFits(b) && Leased(b) && Budgeted(b) && Distinct(b)
  }

  // ---------------------------------------------------------------- reading the invariant

  lemma AssemblePlaced(b: State)
    requires AllKnown(b) && forall m | m in b.nodes :: Tally(b, m) == 1
    ensures Placed(b)
  {
  }

  lemma FutureFitsStable(b: State, c: State)
    requires FutureFits(b) && c.nodes == b.nodes && c.future == b.future
    ensures FutureFits(c)
  {
  }

  /** The same nodes, queues and future, under instances that still know them. */
  lemma PlacesStable(b: State, c: State)
    requires AllKnown(b) && AllKnown(c) && Placed(b) && c.nodes == b.nodes && c.queues == b.queues
         && c.future == b.future
    requires forall n | n in b.nodes :: Order(c, n) == Order(b, n)
    ensures Placed(c)
  {
  }

  lemma PlacedAt(b: State, n: Id)
    requires AllKnown(b) && Placed(b) && n in b.nodes
    ensures Tally(b, n) == 1
  {
  }

  lemma WaitingFacts(b: State, n: Id)
    requires AllKnown(b) && Placed(b) && FutureFits(b) && n in b.nodes && !SourcesDone(b, n)
    ensures !b.nodes[n].completed && !Exhausted(b.nodes[n]) && b.nodes[n].dequeueWorker.None?
    ensures ReadyCount(b, n) == 0 && DelayedCount(b, n) == 0 && b.nodes[n].nextRetry == -1
  {
  }

  lemma HeldFacts(b: State, n: Id)
    requires AllKnown(b) && Placed(b) && FutureFits(b) && n in b.nodes && b.nodes[n].dequeueWorker.Some?
    ensures SourcesDone(b, n) && !b.nodes[n].completed && !Exhausted(b.nodes[n])
    ensures ReadyCount(b, n) == 0 && DelayedCount(b, n) == 0 && b.nodes[n].nextRetry == -1
  {
  }

  lemma ReadyFacts(b: State, n: Id)
    requires AllKnown(b) && Placed(b) && FutureFits(b) && n in b.nodes && ReadyCount(b, n) >= 1
    ensures ReadyCount(b, n) == 1 && DelayedCount(b, n) == 0 && b.nodes[n].nextRetry == -1
    ensures SourcesDone(b, n) && !b.nodes[n].completed && !Exhausted(b.nodes[n]) && b.nodes[n].dequeueWorker.None?
  {
  }

  lemma DelayedFacts(b: State, j: Job)
    requires AllKnown(b) && Placed(b) && FutureFits(b) && j in b.future
    ensures j.node in b.nodes && j == Job(j.node, b.nodes[j.node].nextRetry) && j.priority > -1
    ensures b.future[j] == 1 && ReadyCount(b, j.node) == 0 && b.nodes[j.node].dequeueWorker.None?
    ensures SourcesDone(b, j.node) && !b.nodes[j.node].completed && !Exhausted(b.nodes[j.node])
  {
  }

  lemma NotDelayed(b: State, n: Id, t: int)
    requires FutureFits(b) && n in b.nodes && b.nodes[n].nextRetry == -1
    ensures b.future[Job(n, t)] == 0
  {
  }

  // ---------------------------------------------------------------- what the parts depend on

  ghost predicate SameHistory(b: State, c: State) {
    c.nodes.Keys == b.nodes.Keys && forall n | n in b.nodes ::
      && c.nodes[n].decl == b.nodes[n].decl && c.nodes[n].failures == b.nodes[n].failures
      && c.nodes[n].policy == b.nodes[n].policy
  }

  lemma BudgetedStable(b: State, c: State)
    requires Budgeted(b) && Distinct(b) && SameHistory(b, c)
    ensures Budgeted(c) && Distinct(c)
  {
  }

  /** Old workers keep their claims and their fence; new ones start empty. */
  ghost predicate SameLeases(b: State, c: State) {
    b.workers.Keys <= c.workers.Keys && forall w | w in c.workers ::
      if w in b.workers then
        c.workers[w].claimedWork == b.workers[w].claimedWork && c.workers[w].invalidated == b.workers[w].invalidated
      else c.workers[w].claimedWork == []
  }

  lemma LeasedStable(b: State, c: State)
    requires Leased(b) && SameLeases(b, c) && c.nodes == b.nodes && b.queues.Keys <= c.queues.Keys
    ensures Leased(c)
  {
  }

  /** Pings, cache fills and new workers: only leases of other workers matter. */
  lemma WorkersOnly(b: State, c: State)
    requires AllKnown(b) && OnceEach(b) && SameLeases(b, c)
    requires c.nodes == b.nodes && c.queues == b.queues && c.future == b.future && c.instances == b.instances
    ensures AllKnown(c) && OnceEach(c)
  {
    hide Placed, FutureFits, Leased, Budgeted, Distinct, SameLeases;
    LeasedStable(b, c);
    BudgetedStable(b, c);
    FutureFitsStable(b, c);
    PlacesStable(b, c);
  }

  lemma NewInstanceKeepsOnce(b: State, i: Id)
    requires AllKnown(b) && OnceEach(b) && i !in b.instances
    ensures AllKnown(NewInstance(b, i)) && OnceEach(NewInstance(b, i))
  {
    hide Placed, FutureFits, Leased, Budgeted, Distinct;
    var c := NewInstance(b, i);
    LeasedStable(b, c);
    BudgetedStable(b, c);
    FutureFitsStable(b, c);
    PlacesStable(b, c);
  }
}
