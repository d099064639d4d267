/**
 * What the calls made so far say about the broker, read off the requests and their times alone: no state is looked at.
 * Times are those of the requests in milliseconds; the broker counts whole seconds.
 */
module Ledger {
  import opened Basics
  import opened Retry
  import opened Inspection
  import opened Model
  import opened Runs

  // ---------------------------------------------------------------- workers

  datatype Lists = Lists(excludeQueues: seq<string>, includeQueues: seq<string>, queueTolerations: seq<string>)

  /** The lists that the worker registered with, if it has. */
  function ListsOf(es: seq<Event>, w: Id): Option<Lists> {
    if es == [] then None
    else
      match es[|es| - 1].action
      case CreateWorker(v, exclude, include_, tolerations) =>
        if v == w then Some(Lists(exclude, include_, tolerations)) else ListsOf(es[..|es| - 1], w)
      case _ => ListsOf(es[..|es| - 1], w)
  }

  /** The time at which the worker was last heard of: its last Ping, or its registration. */
  function LastSeen(es: seq<Event>, w: Id): Option<int> {
    if es == [] then None
    else
      match es[|es| - 1].action
      case CreateWorker(v, _, _, _) => if v == w then Some(es[|es| - 1].now) else LastSeen(es[..|es| - 1], w)
      case Ping(v) => if v == w then Some(es[|es| - 1].now) else LastSeen(es[..|es| - 1], w)
      case _ => LastSeen(es[..|es| - 1], w)
  }

  /** A tick of the collector at time t comes more than sixty whole seconds after the worker was last heard of. */
  predicate OverdueAt(es: seq<Event>, w: Id, t: int) {
    LastSeen(es, w).Some? && t / 1000 - LastSeen(es, w).value / 1000 > 60
  }

  /** Some tick of the collector has found the worker overdue. */
  predicate Fenced(es: seq<Event>, w: Id) {
    es != [] &&
      var init, e := es[..|es| - 1], es[|es| - 1];
      Fenced(init, w) || (e.action.CollectWorkers? && OverdueAt(init, w, e.now))
  }

  // ---------------------------------------------------------------- instances and nodes

  /** The instances in the order of their creation. */
  function InstancesOf(es: seq<Event>): seq<Id> {
    if es == [] then []
    else
      match es[|es| - 1].action
      case CreateInstance(i) => InstancesOf(es[..|es| - 1]) + [i]
      case _ => InstancesOf(es[..|es| - 1])
  }

  datatype Creation = Creation(decl: Decl, retry: Option<RetryMessage>)

  /** The request that created the node. */
  function CreationOf(es: seq<Event>, n: Id): Option<Creation> {
    if es == [] then None
    else
      match es[|es| - 1].action
      case CreateNode(m, decl, retry) => if m == n then Some(Creation(decl, retry)) else CreationOf(es[..|es| - 1], n)
      case _ => CreationOf(es[..|es| - 1], n)
  }

  /** Every mention of n among the sources of a later node, in the order of creation. */
  function MentionsOf(es: seq<Event>, n: Id): seq<Id> {
    if es == [] then []
    else
      match es[|es| - 1].action
      case CreateNode(m, decl, _) => MentionsOf(es[..|es| - 1], n) + Times(m, multiset(decl.sources)[n])
      case _ => MentionsOf(es[..|es| - 1], n)
  }

  function Times(n: Id, k: nat): seq<Id> {
    seq(k, i => n)
  }

  /** The last value submitted for the node by a worker that was not fenced. */
  function ValueOf(es: seq<Event>, n: Id): Option<Obj> {
    if es == [] then None
    else
      match es[|es| - 1].action
      case SubmitWork(w, m, value) =>
        if m.identifier == n && !Fenced(es[..|es| - 1], w) then Some(value) else ValueOf(es[..|es| - 1], n)
      case _ => ValueOf(es[..|es| - 1], n)
  }

  /** The tracebacks reported for the node by workers that were not fenced, in order. */
  function TracebacksOf(es: seq<Event>, n: Id): seq<string> {
    if es == [] then []
    else
      match es[|es| - 1].action
      case SubmitFailure(w, m, traceback, _) =>
        if m.identifier == n && !Fenced(es[..|es| - 1], w) then TracebacksOf(es[..|es| - 1], n) + [traceback]
        else TracebacksOf(es[..|es| - 1], n)
      case _ => TracebacksOf(es[..|es| - 1], n)
  }

  /** The time at which the node was last handed out. */
  function ClaimedAt(es: seq<Event>, n: Id): Option<int> {
    if es == [] then None
    else
      match es[|es| - 1].action
      case GetWork(_, _, job) => if job.node == n then Some(es[|es| - 1].now) else ClaimedAt(es[..|es| - 1], n)
      case _ => ClaimedAt(es[..|es| - 1], n)
  }

  // ---------------------------------------------------------------- the broker's memory against the ledger

  /** No request has come from w. */
  ghost predicate Strange(es: seq<Event>, w: Id) {
    ListsOf(es, w).None? && LastSeen(es, w).None? && !Fenced(es, w)
  }

  ghost predicate WorkersFollow(es: seq<Event>, b: State) {
    && (forall w | w !in b.workers :: Strange(es, w))
    && forall w | w in b.workers :: WorkerFollows(es, w, b.workers[w])
  }

  ghost predicate WorkerFollows(es: seq<Event>, w: Id, worker: Worker) {
    && ListsOf(es, w) == Some(Lists(worker.excludeQueues, worker.includeQueues, worker.queueTolerations))
    && LastSeen(es, w).Some? && worker.lastPing == LastSeen(es, w).value / 1000
    && worker.invalidated == Fenced(es, w)
  }

  ghost predicate InstancesFollow(es: seq<Event>, b: State) {
    && (forall i :: i in b.instances <==> i in InstancesOf(es))
    && |b.instances| == |InstancesOf(es)|
    && forall k | 0 <= k < |InstancesOf(es)| ::
         InstancesOf(es)[k] in b.instances && b.instances[InstancesOf(es)[k]] == k
  }

  /** The policy that a retry message asks for, after so many failures. */
  ghost predicate PolicyFollows(policy: Option<Policy>, retry: Option<RetryMessage>, failures: nat) {
    if retry.None? || (retry.value.staticInterval <= 0 && retry.value.exponentialBase <= 0) then policy == None
    else
      && policy.Some? && policy.value.maxAttempts == retry.value.maxAttempts
      && policy.value.currentAttempt == Min(failures, Max(retry.value.maxAttempts, 0))
      && (if retry.value.staticInterval > 0
          then policy.value.staticInterval == retry.value.staticInterval && policy.value.exponentialBase == 0
          else policy.value.staticInterval == 0 && policy.value.exponentialBase == retry.value.exponentialBase)
  }

  ghost predicate NodeFollows(es: seq<Event>, n: Id, node: Node) {
    && CreationOf(es, n).Some? && node.decl == CreationOf(es, n).value.decl
    && PolicyFollows(node.policy, CreationOf(es, n).value.retry, |TracebacksOf(es, n)|)
    && node.failures == TracebacksOf(es, n) && node.destinations == MentionsOf(es, n)
    && node.completed == ValueOf(es, n).Some?
    && node.resolvedValue == (if ValueOf(es, n).Some? then ValueOf(es, n).value else Raw(""))
    && (if node.dequeueWorker.Some?
        then ClaimedAt(es, n).Some? && node.dequeueTimestamp == ClaimedAt(es, n).value / 1000
        else node.dequeueTimestamp == 0)
  }

  /** No request has spoken of n. */
  ghost predicate Unheard(es: seq<Event>, n: Id) {
    && CreationOf(es, n).None? && ValueOf(es, n).None? && ClaimedAt(es, n).None?
    && TracebacksOf(es, n) == [] && MentionsOf(es, n) == []
  }

  ghost predicate NodesFollow(es: seq<Event>, b: State) {
    && (forall n | n !in b.nodes :: Unheard(es, n))
    && forall n | n in b.nodes :: NodeFollows(es, n, b.nodes[n])
  }
}
