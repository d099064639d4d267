/**
 * The broker's objects as the program has them, updated in place, and the proof that each method does to them what
 * Model says it does to their values.
 *
 * The broker carries its value in the ghost field state. Valid has one part for each table: NodesOk, WorkersOk,
 * InstancesOk, QueuesOk and FutureOk say that the objects of that table are as one field of the value says and point to
 * registered objects. The parts own disjoint sets of objects. A method that changes objects of one part says what
 * becomes of that part alone; a method that keeps Valid calls one or two of those and updates the value. The lemmas
 * named Apart and Each take a part apart before an object changes, those named Join, All and Later put it together.
 */
module Broker {
  import opened Basics
  import Retry
  import opened Inspection
  import opened Heap
  import M = Model
  import opened Effects
  import SafetyOfSteps

  function NodeIds(ns: seq<DAGNode>): (ids: seq<Id>)
    ensures |ids| == |ns|
  {
    seq(|ns|, i requires 0 <= i < |ns| => ns[i].identifier)
  }

  function NodeKey(): DAGNode -> Id {
    (n: DAGNode) => n.identifier
  }

  function OtherThan(node: DAGNode): DAGNode -> bool {
    (m: DAGNode) => m.identifier != node.identifier
  }

  lemma {:induction false} WithoutIds(ns: seq<DAGNode>, node: DAGNode)
    ensures NodeIds(Filter(ns, OtherThan(node))) == M.Without(NodeIds(ns), node.identifier)
    ensures forall m | m in Filter(ns, OtherThan(node)) :: m in ns
  {
    if ns != [] {
      var init, ids := ns[..|ns| - 1], NodeIds(ns);
      WithoutIds(init, node);
      assert ids[..|ns| - 1] == NodeIds(init);
    }
  }

  ghost function PolicySet(policy: Retry.RetryPolicy?): set<object> {
    if policy == null then {} else {policy}
  }

  ghost function PolicyOf(policy: Retry.RetryPolicy?): Option<Retry.Policy>
    reads PolicySet(policy)
  {
    if policy == null then None else Some(policy.Value())
  }

  /** r is b with the node made ready. */
  ghost predicate IsReady(b: M.State, r: M.State, node: DAGNode) {
    var q, c := node.queueName, M.WithQueue(b, node.queueName, node.taintName);
    && node.identifier in b.nodes && r.nodes == Retried(b.nodes, node.identifier, -1) && r.workers == c.workers
    && q in c.queues && r.queues == WithJob(c.queues, q, M.Job(node.identifier, node.instance.order))
  }

  lemma MakeReadyParts(b: M.State, node: DAGNode)
    requires M.AllKnown(b) && node.identifier in b.nodes && M.Order(b, node.identifier) == node.instance.order
    requires b.nodes[node.identifier].decl.queueName == node.queueName
    requires b.nodes[node.identifier].decl.taintName == node.taintName
    ensures var r := M.MakeReady(b, node.identifier);
      IsReady(b, r, node) && r.future == b.future && r.instances == b.instances && M.AllKnown(r)
  {
  }

  class DAGNode {
    const identifier: Id
    const functionName: string
    const functionHash: string
    const queueName: string
    const taintName: string
    const arguments: Obj
    const sources: seq<DAGNode>
    const instance: DAGInstance
    const retryPolicy: Retry.RetryPolicy?
    ghost const rank: nat

    var destinations: seq<DAGNode>
    var resolvedValue: Obj
    var completed: bool
    var dequeueTimestamp: int
    var dequeueWorker: Worker?
    var nextRetryAvailable: int
    var failures: seq<string>

    constructor (identifier: Id, functionName: string, functionHash: string, queueName: string, taintName: string,
                 arguments: Obj, sources: seq<DAGNode>, instance: DAGInstance, retryPolicy: Retry.RetryPolicy?,
                 ghost rank: nat)
      ensures this.identifier == identifier && this.instance == instance && this.sources == sources
      ensures this.retryPolicy == retryPolicy && this.rank == rank
      ensures this.functionName == functionName && this.functionHash == functionHash && this.queueName == queueName
           && this.taintName == taintName && this.arguments == arguments
      ensures Decl() == M.Decl(functionName, functionHash, queueName, taintName, arguments, instance.identifier,
                               NodeIds(sources))
      ensures destinations == [] && !completed && resolvedValue == M.NO_VALUE && dequeueTimestamp == 0
      ensures dequeueWorker == null && nextRetryAvailable == -1 && failures == []
    {
      this.identifier := identifier;
      this.functionName := functionName;
      this.functionHash := functionHash;
      this.queueName := queueName;
      this.taintName := taintName;
      this.arguments := arguments;
      this.sources := sources;
      this.instance := instance;
      this.retryPolicy := retryPolicy;
      this.rank := rank;
      destinations := [];
      resolvedValue := M.NO_VALUE;
      completed := false;
      dequeueTimestamp := 0;
      dequeueWorker := null;
      nextRetryAvailable := -1;
      failures := [];
    }

    ghost function Decl(): M.Decl {
      M.Decl(functionName, functionHash, queueName, taintName, arguments, instance.identifier, NodeIds(sources))
    }

    ghost function PolicyValue(): Option<Retry.Policy>
      reads if retryPolicy == null then {} else {retryPolicy}
    {
      if retryPolicy == null then None else Some(retryPolicy.Value())
    }

    /** The objects only this node changes: itself and its policy. */
    ghost function Own(): set<object> {
      if retryPolicy == null then {this} else {this, retryPolicy}
    }

    /** The fields of this object, with pointers replaced by identifiers. */
    ghost function Abs(): M.Node
      reads Own()
    {
      M.Node(Decl(), rank, NodeIds(destinations), completed, resolvedValue, dequeueTimestamp,
             if dequeueWorker == null then None else Some(dequeueWorker.identifier), nextRetryAvailable,
             PolicyValue(), failures)
    }

    method ReleaseWorkerLock()
      requires instance.broker.Valid() && instance.broker.Knows(this)
      modifies instance.broker, instance.broker.Repr()
      ensures instance.broker.Kept() && identifier in old(instance.broker.state).nodes
           && instance.broker.state == M.ReleaseWorkerLock(old(instance.broker.state), identifier)
    {
      hide Broker.Valid, Broker.Knows;
      instance.broker.HolderValues(this);
      var worker := dequeueWorker;
      if worker != null {
        instance.broker.WorkerValues(worker);
        instance.broker.Release(this, worker);
      } else {
        instance.broker.Unclaim(this);
      }
    }

    method ExecutionDidResolve(value: Obj, now: int)
      requires instance.broker.Valid() && instance.broker.Knows(this) && M.DestinationsKnown(instance.broker.state)
      modifies instance.broker, instance.broker.Repr()
      ensures instance.broker.Kept() && identifier in old(instance.broker.state).nodes
           && instance.broker.state == M.ExecutionDidResolve(old(instance.broker.state), identifier, value, now)
    {
      hide Broker.Valid, Broker.Knows, Broker.KnowsAll, M.DestinationsKnown, M.MarkCompleted, M.ReleaseWorkerLock,
           M.NotifyAll, M.AllKnown, M.ExecutionDidResolve, PolicyValue;
      var b := instance.broker;
      b.NodeValues(this);
      ResolveParts(b.state, identifier, value, now);
      b.MarkCompleted(this, value);
      ReleaseWorkerLock();
      b.DestinationValues(this);
      b.Notify(destinations, now);
    }

    method ExecutionDidFail(traceback: string, jitter: real, now: int)
      requires instance.broker.Valid() && instance.broker.Knows(this)
      modifies instance.broker, instance.broker.Repr()
      ensures instance.broker.Kept() && identifier in old(instance.broker.state).nodes
           && instance.broker.state
              == M.ExecutionDidFail(old(instance.broker.state), identifier, traceback, jitter, now)
    {
      hide Broker.Valid, Broker.Knows, M.BackoffNode, M.RecordFailure, M.ReleaseWorkerLock;
      instance.broker.NodeValues(this);
      ReleaseWorkerLock();
      instance.broker.RecordFailure(this, traceback);
      instance.broker.BackoffNode(this, jitter, now);
    }

    method DependencyDidResolve(now: int)
      requires instance.broker.Valid() && instance.broker.Knows(this)
      modifies instance.broker, instance.broker.Repr()
      ensures instance.broker.Kept() && identifier in old(instance.broker.state).nodes
           && instance.broker.state == M.DependencyDidResolve(old(instance.broker.state), identifier, now)
    {
      hide Broker.Valid, Broker.Knows, M.SourcesDone, M.EnqueueNode;
      instance.broker.SourceValues(this);
      var dependenciesComplete := true;
      for i := 0 to |sources|
        invariant dependenciesComplete && forall k | 0 <= k < i :: sources[k].completed
      {
        if !sources[i].completed {
          dependenciesComplete := false;
          break;
        }
      }
      if dependenciesComplete {
        instance.broker.EnqueueNode(this, now);
      }
    }
  }

  class Worker {
    const identifier: Id
    const excludeQueues: seq<string>
    const includeQueues: seq<string>
    const queueTolerations: seq<string>
    var lastPing: int
    var allowedQueues: seq<string>
    var claimedWork: seq<DAGNode>
    var invalidated: bool

    constructor (identifier: Id, excludeQueues: seq<string>, includeQueues: seq<string>, queueTolerations: seq<string>,
                 now: int)
      ensures this.identifier == identifier && claimedWork == []
      ensures this.excludeQueues == excludeQueues && this.includeQueues == includeQueues
           && this.queueTolerations == queueTolerations
      ensures Abs() == M.Worker(excludeQueues, includeQueues, queueTolerations, M.Unix(now), {}, [], false)
    {
      this.identifier := identifier;
      this.excludeQueues := excludeQueues;
      this.includeQueues := includeQueues;
      this.queueTolerations := queueTolerations;
      lastPing := M.Unix(now);
      allowedQueues := [];
      claimedWork := [];
      invalidated := false;
    }

    ghost function Abs(): M.Worker
      reads this
    {
      M.Worker(excludeQueues, includeQueues, queueTolerations, lastPing, (set q | q in allowedQueues),
               NodeIds(claimedWork), invalidated)
    }

    method Ping(now: int)
      modifies this`lastPing
      ensures Abs() == old(Abs()).(lastPing := M.Unix(now))
    {
      lastPing := M.Unix(now);
    }
  }

  class DAGInstance {
    const identifier: Id
    const order: int
    const broker: Broker
    var nodes: map<Id, DAGNode>

    constructor (identifier: Id, order: int, broker: Broker)
      ensures this.identifier == identifier && this.order == order && this.broker == broker && nodes == map[]
    {
      this.identifier := identifier;
      this.order := order;
      this.broker := broker;
      nodes := map[];
    }

    method NewNode(identifier: Id, functionName: string, functionHash: string, queueName: string, taintName: string,
                   arguments: Obj, sources: seq<DAGNode>, retryPolicy: Retry.RetryPolicy?, now: int)
      returns (node: DAGNode)
      requires broker.Valid() && broker.KnowsInstance(this) && broker.KnowsAll(sources) && identifier !in broker.nodes
      requires retryPolicy != null ==> retryPolicy !in broker.Repr()
      modifies broker, broker.Repr(), PolicySet(retryPolicy)
      ensures broker.Valid() && fresh(broker.Repr() - old(broker.Repr()) - PolicySet(retryPolicy)) && broker.Knows(node)
      ensures broker.workers == old(broker.workers) && broker.instances == old(broker.instances)
      ensures broker.nodes == old(broker.nodes)[identifier := node] && node.identifier == identifier
           && node.instance == this && node.sources == sources
      ensures node.functionName == functionName && node.functionHash == functionHash && node.queueName == queueName
           && node.taintName == taintName && node.arguments == arguments
      ensures var decl := M.Decl(functionName, functionHash, queueName, taintName, arguments, this.identifier,
                                 NodeIds(sources));
              SafetyOfSteps.MayInsert(old(broker.state), identifier, decl)
              && broker.state == M.NewNode(old(broker.state), identifier, decl, old(PolicyOf(retryPolicy)), now)
    {
      hide Broker.Valid, M.DependencyDidResolve, M.AllKnown, M.FreshNode, M.InsertNode, Stands, DAGNode.Abs,
           DAGNode.Decl;
      node := broker.BuildNode(identifier, functionName, functionHash, queueName, taintName, arguments, sources, this,
                               retryPolicy);
      broker.Plant(node);
      broker.InstanceKnown(this);
      node.DependencyDidResolve(now);
    }

    function GetNode(identifier: Id): (node: DAGNode?)
      reads this
      ensures node != null <==> identifier in nodes
    {
      if identifier in nodes then nodes[identifier] else null
    }
  }

  /** The node is as the value says, and all its pointers lead to registered objects. */
  ghost predicate Stands(n: DAGNode, value: M.Node, nodes: map<Id, DAGNode>, workers: map<Id, Worker>,
                         instances: map<Id, DAGInstance>)
    reads n.Own()
  {
    && (forall m | m in n.sources :: m.identifier in nodes && nodes[m.identifier] == m)
    && (forall m | m in n.destinations :: m.identifier in nodes && nodes[m.identifier] == m)
    && n.instance.identifier in instances && instances[n.instance.identifier] == n.instance
    && (n.dequeueWorker != null ==>
          n.dequeueWorker.identifier in workers && workers[n.dequeueWorker.identifier] == n.dequeueWorker)
    && (n.retryPolicy != null ==> n.retryPolicy.holder == Some(n.identifier))
    && n.Abs() == value
  }

  /** What an instance has by identifier is the node of that identifier. */
  ghost predicate Lists(i: DAGInstance, nodes: map<Id, DAGNode>)
    reads i
  {
    forall id | id in i.nodes :: id in nodes && nodes[id] == i.nodes[id]
  }

  /** The worker is as the value says, and holds registered nodes. */
  ghost predicate Works(w: Worker, value: M.Worker, nodes: map<Id, DAGNode>)
    reads w
  {
    (forall n | n in w.claimedWork :: n.identifier in nodes && nodes[n.identifier] == n) && w.Abs() == value
  }

  /** A queue in good order, about registered nodes. */
  ghost predicate Queues(queue: HeapQueue<DAGNode>, nodes: map<Id, DAGNode>)
    reads queue, queue.items
  {
    && queue.key == NodeKey() && queue.Valid()
    && forall x | x in queue.items :: x.node.identifier in nodes && nodes[x.node.identifier] == x.node
  }

  /** The larger map extends the smaller one. */
  ghost predicate Within<A, B>(small: map<A, B>, large: map<A, B>) {
    forall id | id in small :: id in large && large[id] == small[id]
  }

  /** Larger tables do no harm. */
  lemma StandsGrow(n: DAGNode, value: M.Node, nodes0: map<Id, DAGNode>, workers0: map<Id, Worker>,
                   instances0: map<Id, DAGInstance>, nodes1: map<Id, DAGNode>, workers1: map<Id, Worker>,
                   instances1: map<Id, DAGInstance>)
    requires Stands(n, value, nodes0, workers0, instances0)
    requires Within(nodes0, nodes1) && Within(workers0, workers1) && Within(instances0, instances1)
    ensures Stands(n, value, nodes1, workers1, instances1)
  {
  }

  class Broker {
    var taskQueues: map<string, HeapQueue<DAGNode>>
    const futureScheduledNodes: HeapQueue<DAGNode>
    const requiredPingInterval := M.REQUIRED_PING_INTERVAL
    var instances: map<Id, DAGInstance>
    var workers: map<Id, Worker>

    /** The value of the whole memory, and all nodes by identifier. */
    ghost var state: M.State
    ghost var nodes: map<Id, DAGNode>

    /** Who owns what: nodes and policies; workers; instances; task queues and the future queue with their jobs. */
    ghost var nodeObjects: set<object>
    ghost var workerObjects: set<object>
    ghost var instanceObjects: set<object>
    ghost var queueObjects: set<object>
    ghost var futureObjects: set<object>

    ghost function Repr(): set<object>
      reads this
    {
      nodeObjects + workerObjects + instanceObjects + queueObjects + futureObjects
    }

    // -------------------------------------------------------------- object invariant

    ghost predicate Knows(n: DAGNode)
      reads this`nodes
    {
      n.identifier in nodes && nodes[n.identifier] == n
    }

    ghost predicate KnowsAll(ns: seq<DAGNode>)
      reads this`nodes
    {
      forall n | n in ns :: Knows(n)
    }

    /** One object of each kind, against its value and the tables as they are now. */
    ghost predicate NodeFits(n: DAGNode, value: M.Node)
      reads this`nodes, this`workers, this`instances, n.Own()
    {
      Stands(n, value, nodes, workers, instances)
    }

    ghost predicate NodesOk(ns: map<Id, M.Node>)
      reads this`nodes, this`workers, this`instances, this`nodeObjects, nodeObjects
    {
      && ns.Keys == nodes.Keys
      && forall id | id in nodes ::
           nodes[id].Own() <= nodeObjects && nodes[id].identifier == id && NodeFits(nodes[id], ns[id])
    }

    ghost predicate WorkerFits(w: Worker, value: M.Worker)
      reads this`nodes, w
    {
      Works(w, value, nodes)
    }

    ghost predicate WorkersOk(ws: map<Id, M.Worker>)
      reads this`nodes, this`workers, this`workerObjects, workerObjects
    {
      && ws.Keys == workers.Keys
      && forall w | w in workers ::
           workers[w] in workerObjects && workers[w].identifier == w && WorkerFits(workers[w], ws[w])
    }

    ghost predicate InstancesOk(orders: map<Id, int>)
      reads this`nodes, this`instances, this`instanceObjects, instanceObjects
    {
      && orders.Keys == instances.Keys
      && (forall i | i in instances ::
            && instances[i] in instanceObjects && instances[i].identifier == i && instances[i].broker == this
            && instances[i].order == orders[i] && Lists(instances[i], nodes))
      && forall id | id in nodes :: nodes[id].instance in instanceObjects && id in nodes[id].instance.nodes
    }

    ghost predicate QueueOk(queue: HeapQueue<DAGNode>)
      reads this`nodes, queue, queue.items
    {
      Queues(queue, nodes)
    }

    ghost predicate QueueFits(queue: HeapQueue<DAGNode>, q: string, value: M.Queue, objects: set<object>)
      reads this`nodes, queue, queue.items
    {
      && queue in objects && queue.items <= objects
      && QueueOk(queue) && queue.tag == Some(q) && queue.taint == value.taint && queue.jobs == value.jobs
    }

    ghost predicate QueuesOk(queues: map<string, M.Queue>)
      reads this`nodes, this`taskQueues, this`queueObjects, queueObjects
    {
      && queues.Keys == taskQueues.Keys
      && forall q | q in taskQueues ::
           taskQueues[q] in queueObjects && taskQueues[q].items <= queueObjects
           && QueueFits(taskQueues[q], q, queues[q], queueObjects)
    }

    ghost predicate FutureOk(jobs: multiset<M.Job>)
      reads this`nodes, this`futureObjects, futureObjects
    {
      var queue := futureScheduledNodes;
      queue in futureObjects && queue.items <= futureObjects && QueueOk(queue) && queue.jobs == jobs
    }

    /** No object belongs to two parts. */
    ghost predicate Separate()
      reads this
    {
      && this !in nodeObjects && this !in workerObjects && this !in instanceObjects && this !in queueObjects
      && this !in futureObjects
      && nodeObjects !! workerObjects && nodeObjects !! instanceObjects && nodeObjects !! queueObjects
      && nodeObjects !! futureObjects && workerObjects !! instanceObjects && workerObjects !! queueObjects
      && workerObjects !! futureObjects && instanceObjects !! queueObjects && instanceObjects !! futureObjects
      && queueObjects !! futureObjects
    }

    ghost predicate Valid()
      reads this, Repr()
      ensures Valid() ==> M.AllKnown(state)
    {
      && Separate() && M.AllKnown(state)
      && NodesOk(state.nodes) && WorkersOk(state.workers) && InstancesOk(state.instances)
      && QueuesOk(state.queues) && FutureOk(state.future)
    }

    /** What every operation leaves behind: the invariant, only new objects added, the same tables. */
    twostate predicate Kept()
      reads this, Repr()
    {
      && Valid() && fresh(Repr() - old(Repr()))
      && nodes == old(nodes) && workers == old(workers) && instances == old(instances)
    }

    constructor ()
      ensures Valid() && fresh(Repr()) && state == M.EMPTY
    {
      taskQueues := map[];
      instances := map[];
      workers := map[];
      nodes := map[];
      state := M.EMPTY;
      var future := new HeapQueue<DAGNode>(NodeKey(), None);
      futureScheduledNodes := future;
      nodeObjects, workerObjects, instanceObjects, queueObjects := {}, {}, {}, {};
      futureObjects := {future};
    }

    // -------------------------------------------------------------- one object changes

    /** Nodes share neither themselves nor their policies. */
    lemma NodesApart(n: DAGNode, ns: map<Id, M.Node>)
      requires NodesOk(ns) && Knows(n)
      ensures ns.Keys == nodes.Keys && n.Own() <= nodeObjects && NodeFits(n, ns[n.identifier])
      ensures forall id | id in nodes && id != n.identifier ::
        && nodes[id].Own() !! n.Own() && nodes[id].Own() <= nodeObjects && nodes[id].identifier == id
        && NodeFits(nodes[id], ns[id])
    {
    }

    /** Every node on its own, and back. */
    lemma NodesEach(ns: map<Id, M.Node>)
      requires NodesOk(ns)
      ensures ns.Keys == nodes.Keys
      ensures forall id | id in nodes ::
                nodes[id].Own() <= nodeObjects && nodes[id].identifier == id && NodeFits(nodes[id], ns[id])
    {
    }

    lemma NodesAll(ns: map<Id, M.Node>)
      requires ns.Keys == nodes.Keys
      requires forall id | id in nodes ::
                 nodes[id].Own() <= nodeObjects && nodes[id].identifier == id && NodeFits(nodes[id], ns[id])
      ensures NodesOk(ns)
    {
    }

    lemma NodesJoin(n: DAGNode, ns: map<Id, M.Node>, value: M.Node)
      requires Knows(n) && n.Own() <= nodeObjects && NodeFits(n, value) && ns.Keys + {n.identifier} == nodes.Keys
      requires forall id | id in nodes && id != n.identifier ::
                 nodes[id].Own() <= nodeObjects && nodes[id].identifier == id && NodeFits(nodes[id], ns[id])
      ensures NodesOk(ns[n.identifier := value])
    {
      hide NodeFits;
    }

    lemma WorkersJoin(w: Worker, ws: map<Id, M.Worker>, value: M.Worker)
      requires w.identifier in workers && workers[w.identifier] == w && w in workerObjects && WorkerFits(w, value)
      requires ws.Keys + {w.identifier} == workers.Keys
      requires forall id | id in workers && id != w.identifier ::
                 workers[id] in workerObjects && workers[id].identifier == id && WorkerFits(workers[id], ws[id])
      ensures WorkersOk(ws[w.identifier := value])
    {
      hide WorkerFits;
    }

    // -------------------------------------------------------------- queues

    method PushTo(queue: HeapQueue<DAGNode>, node: DAGNode, priority: int)
      requires QueueOk(queue) && Knows(node)
      modifies queue, queue.items
      ensures QueueOk(queue) && fresh(queue.items - old(queue.items)) && old(queue.items) <= queue.items
           && queue.jobs == old(queue.jobs) + multiset{M.Job(node.identifier, priority)}
           && queue.taint == old(queue.taint)
    {
      hide HeapQueue.Valid;
      queue.PushItem(node, priority);
    }

    method PushFuture(node: DAGNode, priority: int, ghost jobs: multiset<M.Job>)
      requires FutureOk(jobs) && Knows(node)
      modifies this`futureObjects, futureObjects
      ensures fresh(futureObjects - old(futureObjects)) && old(futureObjects) <= futureObjects
           && FutureOk(jobs + multiset{M.Job(node.identifier, priority)})
    {
      hide QueueOk;
      PushTo(futureScheduledNodes, node, priority);
      futureObjects := futureObjects + futureScheduledNodes.items;
    }

    /** Two queues share no jobs: each job names its queue as its owner. */
    lemma QueueApart(queues: map<string, M.Queue>, q: string)
      requires QueuesOk(queues) && q in taskQueues
      ensures queues.Keys == taskQueues.Keys && QueueFits(taskQueues[q], q, queues[q], queueObjects)
      ensures forall p | p in taskQueues && p != q ::
                && QueueFits(taskQueues[p], p, queues[p], queueObjects)
                && {taskQueues[p] as object} + taskQueues[p].items !! {taskQueues[q] as object} + taskQueues[q].items
    {
    }

    lemma QueuesJoin(queues: map<string, M.Queue>, q: string, value: M.Queue, objects: set<object>)
      requires q in taskQueues && queues.Keys + {q} == taskQueues.Keys && objects <= queueObjects
      requires QueueFits(taskQueues[q], q, value, queueObjects)
      requires forall p | p in taskQueues && p != q :: QueueFits(taskQueues[p], p, queues[p], objects)
      ensures QueuesOk(queues[q := value])
    {
      hide QueueOk;
    }

    method PushNamed(queue: HeapQueue<DAGNode>, ghost q: string, ghost value: M.Queue, node: DAGNode, priority: int)
      requires QueueFits(queue, q, value, queueObjects) && Knows(node)
      modifies this`queueObjects, queue, queue.items
      ensures fresh(queueObjects - old(queueObjects)) && old(queueObjects) <= queueObjects
           && QueueFits(queue, q, value.(jobs := value.jobs + multiset{M.Job(node.identifier, priority)}), queueObjects)
    {
      hide QueueOk;
      PushTo(queue, node, priority);
      queueObjects := queueObjects + queue.items;
    }

    method PushReady(q: string, node: DAGNode, priority: int, ghost queues: map<string, M.Queue>)
      requires QueuesOk(queues) && Knows(node) && q in taskQueues && q in queues
      modifies this`queueObjects, queueObjects
      ensures fresh(queueObjects - old(queueObjects)) && old(queueObjects) <= queueObjects
           && QueuesOk(WithJob(queues, q, M.Job(node.identifier, priority)))
    {
      hide QueueOk;
      QueueApart(queues, q);
      hide *;
      ghost var before := queueObjects;
      PushNamed(taskQueues[q], q, queues[q], node, priority);
      forall p | p in taskQueues && p != q
        ensures QueueFits(taskQueues[p], p, queues[p], before)
      {
        assert unchanged(taskQueues[p]) && unchanged(taskQueues[p].items);
      }
      QueuesJoin(queues, q, WithJob(queues, q, M.Job(node.identifier, priority))[q], before);
    }

    method EmptyQueue(q: string, taint: string) returns (queue: HeapQueue<DAGNode>)
      ensures fresh(queue) && QueueOk(queue) && queue.items == {} && queue.tag == Some(q)
           && queue.taint == taint && queue.jobs == multiset{}
    {
      queue := new HeapQueue<DAGNode>(NodeKey(), Some(q));
      queue.taint := taint;
    }

    method CreateQueue(q: string, taint: string, ghost queues: map<string, M.Queue>)
      requires QueuesOk(queues) && q !in taskQueues
      modifies this`taskQueues, this`queueObjects
      ensures fresh(queueObjects - old(queueObjects)) && old(queueObjects) <= queueObjects && q in taskQueues
           && QueuesOk(queues[q := M.Queue(taint, multiset{})])
    {
      hide QueueOk;
      ghost var before := queueObjects;
      var newQueue := EmptyQueue(q, taint);
      taskQueues := taskQueues[q := newQueue];
      queueObjects := queueObjects + {newQueue};
      QueuesJoin(queues, q, M.Queue(taint, multiset{}), before);
    }

    method DropCache(w: Worker, ghost ws: map<Id, M.Worker>)
      requires WorkersOk(ws) && w.identifier in workers && workers[w.identifier] == w
      modifies w`allowedQueues
      ensures WorkersOk(ws[w.identifier := ws[w.identifier].(allowedQueues := {})])
    {
      w.allowedQueues := [];
      WorkersJoin(w, ws, ws[w.identifier].(allowedQueues := {}));
    }

    method ForgetAllowed(ghost ws: map<Id, M.Worker>)
      requires WorkersOk(ws) && this !in workerObjects
      modifies workerObjects
      ensures WorkersOk(M.ForgetAllowed(ws))
    {
      var rest := workers.Keys;
      ForgetNone(ws);
      hide WorkerFits, ForgetExcept;
      while rest != {}
        invariant WorkersOk(ForgetExcept(ws, rest)) && rest <= workers.Keys
        decreases |rest|
      {
        var w :| w in rest;
        DropCache(workers[w], ForgetExcept(ws, rest));
        ForgetOneMore(ws, rest, w);
        rest := rest - {w};
      }
      ForgetAll(ws);
    }

    /** The queue exists afterwards; if it is new, every cached list of queues is emptied. */
    method EnsureQueue(q: string, taint: string)
      requires QueuesOk(state.queues) && WorkersOk(state.workers) && workerObjects !! queueObjects
           && this !in workerObjects
      modifies this`taskQueues, this`queueObjects, workerObjects
      ensures fresh(queueObjects - old(queueObjects)) && old(queueObjects) <= queueObjects && q in taskQueues
           && QueuesOk(M.WithQueue(state, q, taint).queues) && WorkersOk(M.WithQueue(state, q, taint).workers)
    {
      hide *;
      QueueKeys(state.queues);
      WithQueueParts(state, q, taint);
      if q !in taskQueues {
        CreateQueue(q, taint, state.queues);
        ForgetAllowed(state.workers);
      }
    }

    method SetNextRetry(node: DAGNode, time: int, ghost ns: map<Id, M.Node>)
      requires NodesOk(ns) && Knows(node) && node.identifier in ns
      modifies node`nextRetryAvailable
      ensures NodesOk(Retried(ns, node.identifier, time)) && node.nextRetryAvailable == time
    {
      hide NodesOk;
      NodesApart(node, ns);
      node.nextRetryAvailable := time;
      NodesJoin(node, ns, ns[node.identifier].(nextRetry := time));
    }

    /** What the value says about a node, the node says itself. */
    lemma NodeValues(node: DAGNode)
      requires Valid() && Knows(node)
      ensures node.identifier in state.nodes && node in nodeObjects
      ensures node.retryPolicy != null ==> node.retryPolicy in nodeObjects
      ensures var value := state.nodes[node.identifier];
        && value.decl.queueName == node.queueName && value.decl.taintName == node.taintName
        && value.nextRetry == node.nextRetryAvailable && value.policy == node.PolicyValue()
        && M.Order(state, node.identifier) == node.instance.order
    {
      hide QueuesOk, WorkersOk, FutureOk;
      assert NodeFits(node, state.nodes[node.identifier]);
    }

    /** The second half of EnqueueNode, on the objects: the node is ready. */
    method QueueReady(node: DAGNode, ghost r: M.State)
      requires NodesOk(state.nodes) && WorkersOk(state.workers) && QueuesOk(state.queues) && Knows(node)
      requires Separate() && node in nodeObjects && IsReady(state, r, node)
      modifies this`taskQueues, this`queueObjects, workerObjects, queueObjects, node`nextRetryAvailable
      ensures NodesOk(r.nodes) && WorkersOk(r.workers) && QueuesOk(r.queues)
           && fresh(queueObjects - old(queueObjects)) && old(queueObjects) <= queueObjects
    {
      hide NodesOk, WorkersOk, QueuesOk, WithJob, Retried, Knows, M.WithQueue;
      EnsureQueue(node.queueName, node.taintName);
      SetNextRetry(node, -1, state.nodes);
      PushReady(node.queueName, node, node.instance.order, M.WithQueue(state, node.queueName, node.taintName).queues);
    }

    method MakeReady(node: DAGNode)
      requires Valid() && Knows(node)
      modifies this, Repr()
      ensures Kept() && state == M.MakeReady(old(state), node.identifier)
    {
      hide NodesOk, WorkersOk, InstancesOk, QueuesOk, FutureOk, M.MakeReady, M.AllKnown, Knows, IsReady,
           DAGNode.PolicyValue;
      NodeValues(node);
      MakeReadyParts(state, node);
      QueueReady(node, M.MakeReady(state, node.identifier));
      state := M.MakeReady(state, node.identifier);
    }

    /** The first half of EnqueueNode: the node waits in the future heap. */
    method Delay(node: DAGNode)
      requires Valid() && Knows(node)
      modifies this, Repr()
      ensures Kept() && state == M.Delay(old(state), node.identifier)
    {
      hide NodesOk, WorkersOk, InstancesOk, QueuesOk, FutureOk, M.AllKnown, Knows, DAGNode.PolicyValue;
      NodeValues(node);
      M.DelayKnows(state, node.identifier);
      PushFuture(node, node.nextRetryAvailable, state.future);
      state := M.Delay(state, node.identifier);
    }

    method EnqueueNode(node: DAGNode, now: int)
      requires Valid() && Knows(node)
      modifies this, Repr()
      ensures Kept() && state == M.EnqueueNode(old(state), node.identifier, now)
    {
      hide Valid, Knows, Kept, M.Delay, M.MakeReady, DAGNode.PolicyValue;
      NodeValues(node);
      if node.nextRetryAvailable > -1 && now < node.nextRetryAvailable {
        Delay(node);
      } else {
        MakeReady(node);
      }
    }

    // -------------------------------------------------------------- a node's own fields

    /** One answer of the node's policy; only the attempt counter moves. */
    method AskPolicy(node: DAGNode, policy: Retry.RetryPolicy, jitter: real, ghost ns: map<Id, M.Node>)
      returns (wait: int)
      requires NodesOk(ns) && Knows(node) && node.identifier in ns && policy == node.retryPolicy
      modifies policy`currentAttempt
      ensures wait == Retry.Wait(old(policy.Value()), jitter)
      ensures NodesOk(ns[node.identifier := ns[node.identifier].(policy := Some(Retry.Advance(old(policy.Value()))))])
    {
      hide NodesOk;
      NodesApart(node, ns);
      wait := policy.GetWaitIntervalMilliseconds(jitter);
      NodesJoin(node, ns, ns[node.identifier].(policy := Some(policy.Value())));
    }

    lemma SourceValues(node: DAGNode)
      requires Valid() && Knows(node)
      ensures node.identifier in state.nodes
      ensures M.SourcesDone(state, node.identifier) <==> forall k | 0 <= k < |node.sources| :: node.sources[k].completed
    {
      hide WorkersOk, QueuesOk, FutureOk, InstancesOk, M.AllKnown;
      assert NodeFits(node, state.nodes[node.identifier]);
      var ids := state.nodes[node.identifier].decl.sources;
      forall k | 0 <= k < |node.sources|
        ensures ids[k] in state.nodes && state.nodes[ids[k]].completed == node.sources[k].completed
      {
        assert node.sources[k] in node.sources;
        assert NodeFits(node.sources[k], state.nodes[ids[k]]);
      }
    }

    method TakeAttempt(node: DAGNode, policy: Retry.RetryPolicy, jitter: real) returns (wait: int)
      requires Valid() && Knows(node) && policy == node.retryPolicy
      modifies this`state, policy`currentAttempt
      ensures Kept() && node.identifier in old(state).nodes && wait == Retry.Wait(old(policy.Value()), jitter)
      ensures var value := old(state).nodes[node.identifier];
              value.policy == Some(old(policy.Value())) && state == Update(old(state), node.identifier,
                value.(policy := Some(Retry.Advance(old(policy.Value())))))
    {
      hide NodesOk, WorkersOk, InstancesOk, QueuesOk, FutureOk, M.AllKnown, Knows;
      NodeValues(node);
      ghost var value := state.nodes[node.identifier].(policy := Some(Retry.Advance(policy.Value())));
      UpdateKnows(state, node.identifier, value);
      wait := AskPolicy(node, policy, jitter, state.nodes);
      state := Update(state, node.identifier, value);
    }

    method Postpone(node: DAGNode, time: int)
      requires Valid() && Knows(node)
      modifies this`state, node`nextRetryAvailable
      ensures Kept() && node.identifier in old(state).nodes
           && state == Update(old(state), node.identifier, old(state).nodes[node.identifier].(nextRetry := time))
    {
      hide NodesOk, WorkersOk, InstancesOk, QueuesOk, FutureOk, M.AllKnown, Knows, DAGNode.PolicyValue;
      NodeValues(node);
      UpdateKnows(state, node.identifier, state.nodes[node.identifier].(nextRetry := time));
      SetNextRetry(node, time, state.nodes);
      state := Update(state, node.identifier, state.nodes[node.identifier].(nextRetry := time));
    }

    method BackoffNode(node: DAGNode, jitter: real, now: int)
      requires Valid() && Knows(node)
      modifies this, Repr()
      ensures Kept() && state == M.BackoffNode(old(state), node.identifier, jitter, now)
    {
      hide Valid, Knows, M.EnqueueNode;
      NodeValues(node);
      if node.retryPolicy == null {
        return;
      }
      var wait := TakeAttempt(node, node.retryPolicy, jitter);
      if wait == -1 {
        return;
      }
      ghost var asked := state.nodes[node.identifier];
      UpdateTwice(old(state), node.identifier, asked, asked.(nextRetry := now + wait));
      Postpone(node, now + wait);
      EnqueueNode(node, now);
    }

    // -------------------------------------------------------------- leases

    ghost predicate KnowsWorker(w: Worker)
      reads this`workers
    {
      w.identifier in workers && workers[w.identifier] == w
    }

    lemma WorkerValues(w: Worker)
      requires Valid() && KnowsWorker(w)
      ensures w in workerObjects && w.identifier in state.workers && KnowsAll(w.claimedWork)
      ensures state.workers[w.identifier] == w.Abs()
    {
    }

    lemma HolderValues(node: DAGNode)
      requires Valid() && Knows(node)
      ensures node.identifier in state.nodes && node in nodeObjects
      ensures node.dequeueWorker == null ==> state.nodes[node.identifier].dequeueWorker == None
      ensures node.dequeueWorker != null ==>
        && KnowsWorker(node.dequeueWorker)
        && state.nodes[node.identifier].dequeueWorker == Some(node.dequeueWorker.identifier)
    {
      hide WorkersOk, QueuesOk, FutureOk, InstancesOk, M.AllKnown;
      assert NodeFits(node, state.nodes[node.identifier]);
    }

    method DropClaim(w: Worker, node: DAGNode, ghost ws: map<Id, M.Worker>)
      requires WorkersOk(ws) && KnowsWorker(w)
      modifies w`claimedWork
      ensures var value := ws[w.identifier];
              WorkersOk(ws[w.identifier := value.(claimedWork := M.Without(value.claimedWork, node.identifier))])
    {
      assert WorkerFits(w, ws[w.identifier]);
      ghost var before := w.claimedWork;
      w.claimedWork := FilterSlice(w.claimedWork, OtherThan(node));
      WithoutIds(before, node);
      WorkersJoin(w, ws, ws[w.identifier].(claimedWork := M.Without(ws[w.identifier].claimedWork, node.identifier)));
    }

    method ClearLease(node: DAGNode, ghost ns: map<Id, M.Node>)
      requires NodesOk(ns) && Knows(node) && node.identifier in ns
      modifies node`dequeueTimestamp, node`dequeueWorker
      ensures NodesOk(ns[node.identifier := M.Unclaim(ns[node.identifier])])
    {
      hide NodesOk;
      NodesApart(node, ns);
      node.dequeueTimestamp := 0;
      node.dequeueWorker := null;
      NodesJoin(node, ns, M.Unclaim(ns[node.identifier]));
    }

    method Unclaim(node: DAGNode)
      requires Valid() && Knows(node)
      modifies this`state, node`dequeueTimestamp, node`dequeueWorker
      ensures Kept() && node.identifier in old(state).nodes
           && state == Update(old(state), node.identifier, M.Unclaim(old(state).nodes[node.identifier]))
    {
      hide NodesOk, WorkersOk, InstancesOk, QueuesOk, FutureOk, M.AllKnown, Knows, DAGNode.PolicyValue;
      NodeValues(node);
      UpdateKnows(state, node.identifier, M.Unclaim(state.nodes[node.identifier]));
      ClearLease(node, state.nodes);
      state := Update(state, node.identifier, M.Unclaim(state.nodes[node.identifier]));
    }

    method Release(node: DAGNode, w: Worker)
      requires Valid() && Knows(node) && KnowsWorker(w) && w == node.dequeueWorker
      modifies this`state, w`claimedWork, node`dequeueTimestamp, node`dequeueWorker
      ensures Kept() && state == M.ReleaseWorkerLock(old(state), node.identifier)
    {
      hide NodesOk, WorkersOk, InstancesOk, QueuesOk, FutureOk, M.AllKnown, Knows, KnowsAll, Worker.Abs,
           DAGNode.PolicyValue, M.Unclaim, M.Without;
      NodeValues(node);
      HolderValues(node);
      WorkerValues(w);
      ReleaseKnows(state, node.identifier);
      DropClaim(w, node, state.workers);
      ClearLease(node, state.nodes);
      state := M.ReleaseWorkerLock(state, node.identifier);
    }

    // -------------------------------------------------------------- results and failures

    method SetResolved(node: DAGNode, value: Obj, ghost ns: map<Id, M.Node>)
      requires NodesOk(ns) && Knows(node) && node.identifier in ns
      modifies node`resolvedValue, node`completed
      ensures NodesOk(ns[node.identifier := ns[node.identifier].(resolvedValue := value, completed := true)])
    {
      hide NodesOk;
      NodesApart(node, ns);
      node.resolvedValue := value;
      node.completed := true;
      NodesJoin(node, ns, ns[node.identifier].(resolvedValue := value, completed := true));
    }

    method MarkCompleted(node: DAGNode, value: Obj)
      requires Valid() && Knows(node)
      modifies this`state, node`resolvedValue, node`completed
      ensures Kept() && node.identifier in old(state).nodes
           && state == M.MarkCompleted(old(state), node.identifier, value)
    {
      hide NodesOk, WorkersOk, InstancesOk, QueuesOk, FutureOk, M.AllKnown, Knows, DAGNode.PolicyValue;
      NodeValues(node);
      UpdateKnows(state, node.identifier, state.nodes[node.identifier].(resolvedValue := value, completed := true));
      SetResolved(node, value, state.nodes);
      state := M.MarkCompleted(state, node.identifier, value);
    }

    method AppendFailure(node: DAGNode, traceback: string, ghost ns: map<Id, M.Node>)
      requires NodesOk(ns) && Knows(node) && node.identifier in ns
      modifies node`failures
      ensures var value := ns[node.identifier];
              NodesOk(ns[node.identifier := value.(failures := value.failures + [traceback])])
    {
      hide NodesOk;
      NodesApart(node, ns);
      node.failures := node.failures + [traceback];
      NodesJoin(node, ns, ns[node.identifier].(failures := ns[node.identifier].failures + [traceback]));
    }

    method RecordFailure(node: DAGNode, traceback: string)
      requires Valid() && Knows(node)
      modifies this`state, node`failures
      ensures Kept() && node.identifier in old(state).nodes
           && state == M.RecordFailure(old(state), node.identifier, traceback)
    {
      hide NodesOk, WorkersOk, InstancesOk, QueuesOk, FutureOk, M.AllKnown, Knows, DAGNode.PolicyValue;
      NodeValues(node);
      UpdateKnows(state, node.identifier,
                  state.nodes[node.identifier].(failures := state.nodes[node.identifier].failures + [traceback]));
      AppendFailure(node, traceback, state.nodes);
      state := M.RecordFailure(state, node.identifier, traceback);
    }

    lemma SameBroker(node: DAGNode)
      requires Valid() && Knows(node)
      ensures node.instance.broker == this
    {
      hide WorkersOk, QueuesOk, FutureOk, M.AllKnown;
      assert NodeFits(node, state.nodes[node.identifier]);
    }

    lemma DestinationValues(node: DAGNode)
      requires Valid() && Knows(node)
      ensures node.identifier in state.nodes && KnowsAll(node.destinations)
      ensures state.nodes[node.identifier].destinations == NodeIds(node.destinations)
      ensures forall d | d in NodeIds(node.destinations) :: d in state.nodes
    {
      hide WorkersOk, QueuesOk, FutureOk, InstancesOk, M.AllKnown;
      assert NodeFits(node, state.nodes[node.identifier]);
      forall k | 0 <= k < |node.destinations|
        ensures node.destinations[k].identifier in state.nodes
      {
        assert node.destinations[k] in node.destinations;
      }
    }

    /** The loop of ExecutionDidResolve: tell every destination. */
    method Notify(ds: seq<DAGNode>, now: int)
      requires Valid() && KnowsAll(ds) && M.AllKnown(state) && forall d | d in NodeIds(ds) :: d in state.nodes
      modifies this, Repr()
      ensures Kept() && state == M.NotifyAll(old(state), NodeIds(ds), now)
    {
      hide Valid, M.DependencyDidResolve, M.AllKnown;
      ghost var b := state;
      for i := 0 to |ds|
        invariant Kept() && state == M.NotifyAll(b, NodeIds(ds)[..i], now)
      {
        assert ds[i] in ds;
        SameBroker(ds[i]);
        NotifyStep(b, NodeIds(ds), i, now);
        ds[i].DependencyDidResolve(now);
      }
      assert NodeIds(ds)[..|ds|] == NodeIds(ds);
    }

    // -------------------------------------------------------------- which queues a worker may use

    /** The last filter: a tainted queue needs a toleration. */
    method DropUntolerated(queues: seq<string>, tolerations: seq<string>, ghost value: map<string, M.Queue>)
      returns (kept: seq<string>)
      requires QueuesOk(value) && forall q | q in queues :: q in value
      ensures forall q :: q in kept <==> q in queues && (value[q].taint == "" || value[q].taint in tolerations)
    {
      hide QueueOk;
      kept := [];
      for i := 0 to |queues|
        invariant forall q :: q in kept <==> q in queues[..i] && (value[q].taint == "" || value[q].taint in tolerations)
      {
        var queue := taskQueues[queues[i]];
        assert QueueFits(queue, queues[i], value[queues[i]], queueObjects);
        var tolerated := queue.taint == "";
        if !tolerated {
          tolerated := Contains(tolerations, queue.taint);
        }
        if tolerated {
          kept := kept + [queues[i]];
        }
      }
      assert queues[..|queues|] == queues;
    }

    method QueueNames() returns (names: seq<string>)
      ensures forall q :: q in names <==> q in taskQueues
    {
      names := [];
      var rest := taskQueues.Keys;
      while rest != {}
        invariant rest <= taskQueues.Keys && forall q :: q in names <==> q in taskQueues && q !in rest
        decreases |rest|
      {
        var q :| q in rest;
        names := names + [q];
        rest := rest - {q};
      }
    }

    lemma QueueKeys(queues: map<string, M.Queue>)
      requires QueuesOk(queues)
      ensures queues.Keys == taskQueues.Keys
    {
    }

    method ComputeAllowed(w: Worker, ghost b: M.State) returns (names: seq<string>)
      requires QueuesOk(b.queues)
      ensures forall q :: q in names <==> q in M.Allowed(b, w.Abs())
    {
      hide QueuesOk, Filter;
      QueueKeys(b.queues);
      names := QueueNames();
      if |w.includeQueues| > 0 {
        FilterMembers(names, OneOf(w.includeQueues));
        names := FilterSlice(names, OneOf(w.includeQueues));
      }
      FilterMembers(names, NoneOf(w.excludeQueues));
      names := FilterSlice(names, NoneOf(w.excludeQueues));
      names := DropUntolerated(names, w.queueTolerations, b.queues);
    }

    method CacheAllowed(w: Worker, names: seq<string>, ghost ws: map<Id, M.Worker>)
      requires WorkersOk(ws) && KnowsWorker(w)
      modifies w`allowedQueues
      ensures WorkersOk(ws[w.identifier := ws[w.identifier].(allowedQueues := (set q | q in names))])
    {
      w.allowedQueues := names;
      WorkersJoin(w, ws, ws[w.identifier].(allowedQueues := (set q | q in names)));
    }

    method GetAllowedQueues(w: Worker) returns (names: seq<string>)
      requires Valid() && KnowsWorker(w)
      modifies this`state, w`allowedQueues
      ensures Kept() && w.identifier in old(state).workers && state == M.FillCache(old(state), w.identifier)
      ensures forall q :: q in names <==> q in M.EffectiveAllowed(old(state), old(state).workers[w.identifier])
    {
      hide NodesOk, WorkersOk, InstancesOk, QueuesOk, FutureOk, M.AllKnown, Knows, M.Allowed;
      WorkerValues(w);
      if |w.allowedQueues| > 0 {
        assert w.allowedQueues[0] in state.workers[w.identifier].allowedQueues;
        FullCacheStays(state, w.identifier);
        names := w.allowedQueues;
      } else {
        names := ComputeAllowed(w, state);
        FillKnows(state, w.identifier, names);
        CacheAllowed(w, names, state.workers);
      }
      state := M.FillCache(state, w.identifier);
    }

    // -------------------------------------------------------------- handing out work

    /** The least job of a queue, without taking it. */
    method Peek(q: string, ghost queues: map<string, M.Queue>) returns (item: QueuedJob?<DAGNode>)
      requires QueuesOk(queues) && q in taskQueues && q in queues
      ensures item == null <==> queues[q].jobs == multiset{}
      ensures item != null ==> Top(queues[q].jobs, item.priority)
    {
      assert QueueFits(taskQueues[q], q, queues[q], queueObjects);
      hide HeapQueue.Valid;
      item := taskQueues[q].PeekItem();
      if item != null {
        assert M.Least(queues[q].jobs, taskQueues[q].JobOf(item));
      }
    }

    /** The scan of PopNextNode: the queue with the least job among the allowed ones, or "" if all are empty. */
    method ScanQueues(allowed: seq<string>, ghost queues: map<string, M.Queue>) returns (name: string)
      requires QueuesOk(queues)
      ensures exists minimum :: Best(queues, allowed, queues.Keys, name, minimum)
    {
      hide *;
      QueueKeys(queues);
      var minimumPriority := M.MAX_INT64;
      name := "";
      NoneSeen(queues, allowed);
      var rest := taskQueues.Keys;
      ghost var seen := {};
      while rest != {}
        invariant rest <= queues.Keys && seen == queues.Keys - rest
        invariant Best(queues, allowed, seen, name, minimumPriority)
        decreases |rest|
      {
        var q :| q in rest;
        rest := rest - {q};
        var usable := Contains(allowed, q);
        if !usable {
          SeenUnusable(queues, allowed, seen, name, minimumPriority, q);
        } else {
          var topItem := Peek(q, queues);
          if topItem == null {
            SeenEmpty(queues, allowed, seen, name, minimumPriority, q);
          } else {
            SeenTop(queues, allowed, seen, name, minimumPriority, q, topItem.priority);
            if topItem.priority < minimumPriority {
              minimumPriority := topItem.priority;
              name := q;
            }
          }
        }
        seen := seen + {q};
      }
      assert seen == queues.Keys;
    }

    method PopFrom(queue: HeapQueue<DAGNode>) returns (node: DAGNode, ghost job: M.Job)
      requires QueueOk(queue) && queue.jobs != multiset{}
      modifies queue, queue.items
      ensures QueueOk(queue) && queue.items <= old(queue.items) && queue.taint == old(queue.taint) && Knows(node)
           && M.Least(old(queue.jobs), job) && job.node == node.identifier
           && queue.jobs == old(queue.jobs) - multiset{job}
    {
      hide HeapQueue.Valid;
      var item := queue.PopItem();
      node := item.node;
      job := queue.JobOf(item);
    }

    method PopNamed(queue: HeapQueue<DAGNode>, ghost q: string, ghost value: M.Queue)
      returns (node: DAGNode, ghost job: M.Job)
      requires QueueFits(queue, q, value, queueObjects) && value.jobs != multiset{}
      modifies queue, queue.items
      ensures QueueFits(queue, q, value.(jobs := value.jobs - multiset{job}), queueObjects) && Knows(node)
           && M.Least(value.jobs, job) && job.node == node.identifier
    {
      hide QueueOk;
      node, job := PopFrom(queue);
    }

    method PopReady(q: string, ghost queues: map<string, M.Queue>) returns (node: DAGNode, ghost job: M.Job)
      requires QueuesOk(queues) && q in taskQueues && q in queues && queues[q].jobs != multiset{}
      modifies queueObjects
      ensures QueuesOk(WithoutJob(queues, q, job)) && Knows(node) && M.Least(queues[q].jobs, job)
           && job.node == node.identifier
    {
      hide QueueOk;
      QueueApart(queues, q);
      hide *;
      ghost var before := queueObjects;
      node, job := PopNamed(taskQueues[q], q, queues[q]);
      forall p | p in taskQueues && p != q
        ensures QueueFits(taskQueues[p], p, queues[p], before)
      {
        assert unchanged(taskQueues[p]) && unchanged(taskQueues[p].items);
      }
      QueuesJoin(queues, q, WithoutJob(queues, q, job)[q], before);
    }

    method SetLease(node: DAGNode, w: Worker, now: int, ghost ns: map<Id, M.Node>)
      requires NodesOk(ns) && Knows(node) && KnowsWorker(w) && node.identifier in ns
      modifies node`dequeueTimestamp, node`dequeueWorker
      ensures var value := ns[node.identifier];
              NodesOk(ns[node.identifier :=
                value.(dequeueTimestamp := M.Unix(now), dequeueWorker := Some(w.identifier))])
    {
      hide NodesOk;
      NodesApart(node, ns);
      node.dequeueTimestamp := M.Unix(now);
      node.dequeueWorker := w;
      NodesJoin(node, ns, ns[node.identifier].(dequeueTimestamp := M.Unix(now), dequeueWorker := Some(w.identifier)));
    }

    method AppendClaim(w: Worker, node: DAGNode, ghost ws: map<Id, M.Worker>)
      requires WorkersOk(ws) && KnowsWorker(w) && Knows(node)
      modifies w`claimedWork
      ensures var value := ws[w.identifier];
              WorkersOk(ws[w.identifier := value.(claimedWork := value.claimedWork + [node.identifier])])
    {
      assert WorkerFits(w, ws[w.identifier]);
      w.claimedWork := w.claimedWork + [node];
      WorkersJoin(w, ws, ws[w.identifier].(claimedWork := ws[w.identifier].claimedWork + [node.identifier]));
    }

    lemma OwnsNode(node: DAGNode, ns: map<Id, M.Node>)
      requires NodesOk(ns) && Knows(node)
      ensures node in nodeObjects && node.identifier in ns
    {
    }

    method TakeObjects(q: string, w: Worker, now: int, ghost b: M.State) returns (node: DAGNode, ghost job: M.Job)
      requires NodesOk(b.nodes) && WorkersOk(b.workers) && QueuesOk(b.queues) && Separate()
      requires KnowsWorker(w) && w in workerObjects && w.identifier in b.workers
      requires q in taskQueues && q in b.queues && b.queues[q].jobs != multiset{}
      modifies queueObjects, nodeObjects, w`claimedWork
      ensures Knows(node) && job.node == node.identifier && node.identifier in b.nodes && M.Least(b.queues[q].jobs, job)
      ensures var r := Handed(b, w.identifier, q, job, now);
              NodesOk(r.nodes) && WorkersOk(r.workers) && QueuesOk(r.queues)
    {
      hide NodesOk, WorkersOk, QueuesOk, Knows, WithoutJob, M.Least;
      node, job := PopReady(q, b.queues);
      OwnsNode(node, b.nodes);
      SetLease(node, w, now, b.nodes);
      AppendClaim(w, node, b.workers);
      HandedParts(b, w.identifier, q, job, now);
    }

    method HandOut(q: string, w: Worker, now: int) returns (node: DAGNode, ghost job: M.Job)
      requires Valid() && KnowsWorker(w) && q in taskQueues && q in state.queues && state.queues[q].jobs != multiset{}
      modifies this, Repr()
      ensures Kept() && Knows(node) && job.node == node.identifier && M.Least(old(state).queues[q].jobs, job)
           && w.identifier in old(state).workers && node.identifier in old(state).nodes
           && state == Handed(old(state), w.identifier, q, job, now)
    {
      hide NodesOk, WorkersOk, InstancesOk, QueuesOk, FutureOk, M.AllKnown, Knows, KnowsAll, Worker.Abs, M.Least,
           Handed;
      WorkerValues(w);
      node, job := TakeObjects(q, w, now, state);
      HandedParts(state, w.identifier, q, job, now);
      state := Handed(state, w.identifier, q, job, now);
    }

    /** q and job, the queue and the job it was taken from, are only for the contract. */
    method PopNextNode(w: Worker, now: int) returns (node: DAGNode?, ghost q: string, ghost job: M.Job)
      requires Valid() && KnowsWorker(w)
      modifies this, Repr()
      ensures Kept() && w.identifier in old(state).workers
      ensures node == null ==> SentAway(old(state), w.identifier) && state == M.FillCache(old(state), w.identifier)
      ensures node != null ==>
        && Knows(node) && job.node == node.identifier && job.node in old(state).nodes
        && M.LeastJob(old(state), w.identifier, q, job) && q != "" && job.priority < M.MAX_INT64
        && state == M.Claim(old(state), w.identifier, q, job, now)
    {
      hide Valid, Knows, M.AllKnown, M.EffectiveAllowed, M.LeastJob, SentAway, Handed, M.Claim, M.FillCache, Best;
      WorkerOwned(w);
      var allowed := GetAllowedQueues(w);
      FillKeeps(old(state), w.identifier);
      var name := Scan(allowed);
      ghost var minimum :| Best(state.queues, allowed, state.queues.Keys, name, minimum);
      q := name;
      if name == "" {
        BestIsNothing(old(state), w.identifier, allowed, minimum);
        node, job := null, M.Job(name, 0);
        return;
      }
      BestIsThere(old(state), allowed, name, minimum);
      node, job := HandOut(name, w, now);
      BestIsLeast(old(state), w.identifier, allowed, name, minimum, job);
      HandedIsClaim(old(state), w.identifier, name, job, now);
    }

    lemma WorkerOwned(w: Worker)
      requires Valid() && KnowsWorker(w)
      ensures w in workerObjects
    {
    }

    method Scan(allowed: seq<string>) returns (name: string)
      requires Valid()
      ensures exists minimum :: Best(state.queues, allowed, state.queues.Keys, name, minimum)
      ensures name != "" ==> (name in taskQueues <==> name in state.queues)
    {
      hide NodesOk, WorkersOk, InstancesOk, QueuesOk, FutureOk, Best;
      QueueKeys(state.queues);
      name := ScanQueues(allowed, state.queues);
    }

    // -------------------------------------------------------------- the two background ticks

    method Reclaim(node: DAGNode, now: int)
      requires Valid() && Knows(node)
      modifies this, Repr()
      ensures Kept() && node.identifier in old(state).nodes && state == M.Reclaim(old(state), node.identifier, now)
    {
      hide Valid, Knows, M.EnqueueNode, M.AllKnown, M.Unclaim;
      NodeValues(node);
      Unclaim(node);
      EnqueueNode(node, now);
    }

    /** The inner loop of the collection: free a worker's nodes back into the pool. */
    method ReclaimAll(ns: seq<DAGNode>, now: int)
      requires Valid() && KnowsAll(ns) && M.AllKnown(state) && forall n | n in NodeIds(ns) :: n in state.nodes
      modifies this, Repr()
      ensures Kept() && state == M.ReclaimAll(old(state), NodeIds(ns), now)
    {
      hide Valid, M.Reclaim, M.AllKnown;
      ghost var b := state;
      for i := 0 to |ns|
        invariant Kept() && state == M.ReclaimAll(b, NodeIds(ns)[..i], now)
      {
        assert ns[i] in ns;
        ReclaimStep(b, NodeIds(ns), i, now);
        Reclaim(ns[i], now);
      }
      assert NodeIds(ns)[..|ns|] == NodeIds(ns);
    }

    method SetRetired(w: Worker, ghost ws: map<Id, M.Worker>)
      requires WorkersOk(ws) && KnowsWorker(w)
      modifies w`claimedWork, w`invalidated
      ensures WorkersOk(ws[w.identifier := ws[w.identifier].(claimedWork := [], invalidated := true)])
    {
      w.claimedWork := [];
      w.invalidated := true;
      WorkersJoin(w, ws, ws[w.identifier].(claimedWork := [], invalidated := true));
    }

    method Retire(w: Worker)
      requires Valid() && KnowsWorker(w)
      modifies this`state, w`claimedWork, w`invalidated
      ensures Kept() && w.identifier in old(state).workers && state == M.Retire(old(state), w.identifier)
    {
      hide NodesOk, WorkersOk, InstancesOk, QueuesOk, FutureOk, M.AllKnown, Knows, KnowsAll, Worker.Abs;
      WorkerValues(w);
      RetireKnows(state, w.identifier);
      SetRetired(w, state.workers);
      state := M.Retire(state, w.identifier);
    }

    lemma ClaimedValues(w: Worker)
      requires Valid() && KnowsWorker(w)
      ensures w.identifier in state.workers && KnowsAll(w.claimedWork)
      ensures var value := state.workers[w.identifier];
        value.lastPing == w.lastPing && value.claimedWork == NodeIds(w.claimedWork)
      ensures forall n | n in NodeIds(w.claimedWork) :: n in state.nodes
    {
    }

    /** One round of the collection. */
    method CollectWorker(w: Worker, now: int)
      requires Valid() && KnowsWorker(w) && M.ClaimsKnown(state)
      modifies this, Repr()
      ensures Kept() && state == M.CollectWorker(old(state), w.identifier, now)
    {
      hide Valid, M.AllKnown, KnowsAll, M.ClaimsKnown, M.ReclaimAll, M.Retire, M.Stale, M.CollectWorker;
      ClaimedValues(w);
      CollectParts(state, w.identifier, now);
      if w.lastPing < M.Unix(now) - requiredPingInterval {
        ReclaimAll(w.claimedWork, now);
        WorkerOwned(w);
        Retire(w);
      }
    }

    /** order is the order in which the workers were looked at. */
    method GarbageCollectWorkersExecute(now: int) returns (ghost order: seq<Id>)
      requires Valid() && M.ClaimsKnown(state)
      modifies this, Repr()
      ensures Kept() && NoDup(order) && forall w :: w in order <==> w in old(state).workers
      ensures state == M.CollectAll(old(state), order, now)
    {
      hide Valid, M.AllKnown, M.ClaimsKnown, M.CollectWorker, M.CollectAll, NoDup;
      WorkerKeys();
      ghost var b := state;
      order := [];
      var rest := workers.Keys;
      CollectNone(b, now);
      while rest != {}
        invariant Kept() && rest <= workers.Keys && NoDup(order)
        invariant forall w :: w in order <==> w in workers && w !in rest
        invariant state == M.CollectAll(b, order, now) && M.ClaimsKnown(state)
        decreases |rest|
      {
        var w :| w in rest;
        WorkerNamed(w);
        CollectMore(b, order, w, now);
        CollectWorker(workers[w], now);
        order := order + [w];
        rest := rest - {w};
      }
    }

    lemma WorkerKeys()
      requires Valid()
      ensures workers.Keys == state.workers.Keys
    {
    }

    lemma WorkerNamed(w: Id)
      requires Valid() && w in workers
      ensures workers[w].identifier == w
    {
    }

    method PopFuture(ghost jobs: multiset<M.Job>) returns (node: DAGNode, ghost job: M.Job)
      requires FutureOk(jobs) && jobs != multiset{}
      modifies futureObjects
      ensures FutureOk(jobs - multiset{job}) && Knows(node) && M.Least(jobs, job) && job.node == node.identifier
    {
      hide QueueOk;
      node, job := PopFrom(futureScheduledNodes);
    }

    method PeekFuture() returns (item: QueuedJob?<DAGNode>)
      requires Valid()
      ensures item == null <==> state.future == multiset{}
      ensures item != null ==> Top(state.future, item.priority)
    {
      hide NodesOk, WorkersOk, InstancesOk, QueuesOk, HeapQueue.Valid, M.AllKnown;
      item := futureScheduledNodes.PeekItem();
      if item != null {
        assert M.Least(state.future, futureScheduledNodes.JobOf(item));
      }
    }

    /** The job leaves the future heap. */
    method TakeFuture() returns (node: DAGNode, ghost job: M.Job)
      requires Valid() && state.future != multiset{}
      modifies this`state, futureObjects
      ensures Kept() && Knows(node) && job.node == node.identifier && M.Least(old(state).future, job)
           && job.node in old(state).nodes && state == old(state).(future := old(state).future - multiset{job})
    {
      hide NodesOk, WorkersOk, InstancesOk, QueuesOk, FutureOk, M.Least, M.AllKnown, Knows;
      node, job := PopFuture(state.future);
      KnownNode(node, state.nodes);
      FutureKnows(state, state.future - multiset{job});
      state := state.(future := state.future - multiset{job});
    }

    lemma KnownNode(node: DAGNode, ns: map<Id, M.Node>)
      requires NodesOk(ns) && Knows(node)
      ensures node.identifier in ns
    {
    }

    /**
     * jobs are the jobs moved, in order. The loop keeps the lock of the future heap; if it pops job and the retry time
     * of the node lies ahead, EnqueueNode waits for that lock forever. Here the method returns instead and says so.
     */
    method QueueFutureScheduledExecute(now: int) returns (stalled: bool, ghost jobs: seq<M.Job>, ghost job: M.Job)
      requires Valid()
      modifies this, Repr()
      ensures Kept() && (forall j | j in jobs :: j.node in old(state).nodes) && M.DrainRounds(old(state), jobs, now)
      ensures var r := M.DrainAll(old(state), jobs, now);
        if stalled then M.Reenters(r, job, now) && state == M.Undelay(r, job)
        else state == r && M.NothingDue(state, now)
      ensures stalled <==> exists j :: M.Overtaken(old(state), j, now)
    {
      hide Valid, M.AllKnown, M.DrainAll, M.DrainRounds, M.NothingDue, M.Least, Top, Knows, M.Overtaken, M.Reenters,
           M.MustWait, M.DrainOne, M.Undelay;
      ghost var b := state;
      jobs, job, stalled := [], M.Job("", 0), false;
      DrainNone(b, now);
      var length := FutureLength();
      if length == 0 {
        NoneDue(state, now);
      } else {
        while true
          invariant !stalled && Kept() && (forall j | j in jobs :: j.node in b.nodes)
          invariant state == M.DrainAll(b, jobs, now) && M.DrainRounds(b, jobs, now)
          decreases |state.future|
        {
          var nextNode := PeekFuture();
          if nextNode == null {
            NoneDue(state, now);
            break;
          }
          if nextNode.priority > now {
            LaterDue(state, nextNode.priority, now);
            break;
          }
          ghost var before, top := state, nextNode.priority;
          stalled, job := QueueNext(top, now);
          if stalled {
            DrainStalls(before, job, top, now);
            break;
          }
          DrainMore(b, jobs, job, top, now);
          jobs := jobs + [job];
        }
      }
      DrainEnds(b, jobs, job, stalled, now);
    }

    /** The end of the loop body: pop, and enqueue if that needs no lock held already. */
    method QueueNext(ghost top: int, now: int) returns (stalled: bool, ghost job: M.Job)
      requires Valid() && Top(state.future, top)
      modifies this, Repr()
      ensures Kept() && M.Least(old(state).future, job) && job.node in old(state).nodes
      ensures stalled <==> M.MustWait(old(state).nodes[job.node], now)
      ensures state == if stalled then M.Undelay(old(state), job) else M.DrainOne(old(state), job, now)
    {
      hide Valid, M.AllKnown, M.Least, Top, M.EnqueueNode, Knows, DAGNode.PolicyValue;
      TopMeansSome(state.future, top);
      var node: DAGNode;
      node, job := TakeFuture();
      NodeValues(node);
      stalled := node.nextRetryAvailable > -1 && now < node.nextRetryAvailable;
      if !stalled {
        EnqueueNode(node, now);
      }
    }

    method FutureLength() returns (n: nat)
      requires Valid()
      ensures n == |state.future|
    {
      hide NodesOk, WorkersOk, InstancesOk, QueuesOk, HeapQueue.Valid, M.AllKnown;
      n := futureScheduledNodes.Length();
    }

    // -------------------------------------------------------------- new workers, instances and nodes

    /** Growth of the tables: the invariant, only new objects added. */
    twostate predicate Grown()
      reads this, Repr()
    {
      Valid() && fresh(Repr() - old(Repr()))
    }

    method AddWorker(w: Worker, ghost ns: map<Id, M.Node>, ghost ws: map<Id, M.Worker>)
      requires NodesOk(ns) && WorkersOk(ws) && w.identifier !in workers && KnowsAll(w.claimedWork)
      modifies this`workers, this`workerObjects
      ensures NodesOk(ns) && WorkersOk(ws[w.identifier := w.Abs()]) && KnowsWorker(w)
           && workerObjects == old(workerObjects) + {w}
    {
      hide NodesOk, Stands, WorkerFits;
      NodesEach(ns);
      ghost var before := workers;
      workers := workers[w.identifier := w];
      workerObjects := workerObjects + {w};
      forall id | id in nodes
        ensures NodeFits(nodes[id], ns[id])
      {
        StandsGrow(nodes[id], ns[id], nodes, before, instances, nodes, workers, instances);
      }
      NodesAll(ns);
      WorkerJoins(w, ws);
    }

    lemma WorkerJoins(w: Worker, ws: map<Id, M.Worker>)
      requires KnowsWorker(w) && w in workerObjects && KnowsAll(w.claimedWork)
           && ws.Keys + {w.identifier} == workers.Keys
      requires forall id | id in workers && id != w.identifier ::
                 workers[id] in workerObjects && workers[id].identifier == id && WorkerFits(workers[id], ws[id])
      ensures WorkersOk(ws[w.identifier := w.Abs()])
    {
      WorkersJoin(w, ws, w.Abs());
    }

    method NewWorker(identifier: Id, excludeQueues: seq<string>, includeQueues: seq<string>,
                     queueTolerations: seq<string>, now: int)
      returns (w: Worker)
      requires Valid() && identifier !in workers
      modifies this
      ensures Grown() && nodes == old(nodes) && instances == old(instances) && KnowsWorker(w)
           && w.identifier == identifier && w.excludeQueues == excludeQueues && w.includeQueues == includeQueues
           && w.queueTolerations == queueTolerations
      ensures state == M.NewWorker(old(state), identifier, excludeQueues, includeQueues, queueTolerations, now)
    {
      hide NodesOk, WorkersOk, InstancesOk, QueuesOk, FutureOk, M.AllKnown;
      NewWorkerKnows(state, identifier, excludeQueues, includeQueues, queueTolerations, now);
      w := new Worker(identifier, excludeQueues, includeQueues, queueTolerations, now);
      AddWorker(w, state.nodes, state.workers);
      state := M.NewWorker(state, identifier, excludeQueues, includeQueues, queueTolerations, now);
    }

    ghost predicate KnowsInstance(i: DAGInstance)
      reads this`instances
    {
      i.identifier in instances && instances[i.identifier] == i
    }

    ghost predicate InstanceFits(i: DAGInstance, order: int)
      reads this`nodes, this`instanceObjects, i
    {
      i in instanceObjects && i.broker == this && i.order == order && Lists(i, nodes)
    }

    lemma InstancesEach(orders: map<Id, int>)
      requires InstancesOk(orders)
      ensures orders.Keys == instances.Keys
      ensures forall i | i in instances :: instances[i].identifier == i && InstanceFits(instances[i], orders[i])
      ensures forall id | id in nodes :: nodes[id].instance in instanceObjects && id in nodes[id].instance.nodes
    {
    }

    lemma InstancesJoin(i: DAGInstance, orders: map<Id, int>)
      requires KnowsInstance(i) && InstanceFits(i, i.order) && orders.Keys + {i.identifier} == instances.Keys
      requires forall j | j in instances && j != i.identifier ::
                 instances[j].identifier == j && InstanceFits(instances[j], orders[j])
      requires forall id | id in nodes :: nodes[id].instance in instanceObjects && id in nodes[id].instance.nodes
      ensures InstancesOk(orders[i.identifier := i.order])
    {
      hide Lists;
    }

    method AddInstance(i: DAGInstance, ghost ns: map<Id, M.Node>, ghost orders: map<Id, int>)
      requires NodesOk(ns) && InstancesOk(orders) && i.identifier !in instances && i.nodes == map[] && i.broker == this
      modifies this`instances, this`instanceObjects
      ensures NodesOk(ns) && InstancesOk(orders[i.identifier := i.order]) && KnowsInstance(i)
           && instanceObjects == old(instanceObjects) + {i}
    {
      hide NodesOk, Stands, InstancesOk;
      NodesEach(ns);
      InstancesEach(orders);
      ghost var before := instances;
      instances := instances[i.identifier := i];
      instanceObjects := instanceObjects + {i};
      InstancesJoin(i, orders);
      forall id | id in nodes
        ensures NodeFits(nodes[id], ns[id])
      {
        StandsGrow(nodes[id], ns[id], nodes, workers, before, nodes, workers, instances);
      }
      NodesAll(ns);
    }

    method NewInstance(identifier: Id) returns (i: DAGInstance)
      requires Valid() && identifier !in instances
      modifies this
      ensures Grown() && nodes == old(nodes) && workers == old(workers) && KnowsInstance(i)
           && i.identifier == identifier
      ensures state == M.NewInstance(old(state), identifier)
    {
      hide NodesOk, WorkersOk, InstancesOk, QueuesOk, FutureOk, M.AllKnown, KnowsInstance;
      NewInstanceKnows(state, identifier);
      InstanceKeys();
      i := new DAGInstance(identifier, |instances|, this);
      AddInstance(i, state.nodes, state.instances);
      state := M.NewInstance(state, identifier);
    }

    lemma InstanceKeys()
      requires Valid()
      ensures instances.Keys == state.instances.Keys && |instances| == |state.instances|
    {
    }

    // Every part on its own, and put together again when the table of nodes has grown.

    lemma WorkersEach(ws: map<Id, M.Worker>)
      requires WorkersOk(ws)
      ensures ws.Keys == workers.Keys && forall w | w in workers ::
        workers[w] in workerObjects && workers[w].identifier == w && Works(workers[w], ws[w], nodes)
    {
    }

    lemma WorkersLater(ws: map<Id, M.Worker>, before: map<Id, DAGNode>)
      requires Within(before, nodes) && ws.Keys == workers.Keys
      requires forall w | w in workers ::
                 workers[w] in workerObjects && workers[w].identifier == w && Works(workers[w], ws[w], before)
      ensures WorkersOk(ws)
    {
    }

    ghost predicate QueueStands(q: string, value: M.Queue, known: map<Id, DAGNode>)
      requires q in taskQueues
      reads this`taskQueues, this`queueObjects, queueObjects
    {
      var queue := taskQueues[q];
      && queue in queueObjects && queue.items <= queueObjects && Queues(queue, known)
      && queue.tag == Some(q) && queue.taint == value.taint && queue.jobs == value.jobs
    }

    lemma QueuesEach(queues: map<string, M.Queue>)
      requires QueuesOk(queues)
      ensures queues.Keys == taskQueues.Keys && forall q | q in taskQueues :: QueueStands(q, queues[q], nodes)
    {
    }

    lemma QueuesLater(queues: map<string, M.Queue>, before: map<Id, DAGNode>)
      requires Within(before, nodes) && queues.Keys == taskQueues.Keys
      requires forall q | q in taskQueues :: QueueStands(q, queues[q], before)
      ensures QueuesOk(queues)
    {
    }

    ghost predicate FutureStands(jobs: multiset<M.Job>, known: map<Id, DAGNode>)
      reads this`futureObjects, futureObjects
    {
      var queue := futureScheduledNodes;
      queue in futureObjects && queue.items <= futureObjects && Queues(queue, known) && queue.jobs == jobs
    }

    lemma FutureLater(jobs: multiset<M.Job>, before: map<Id, DAGNode>)
      requires FutureStands(jobs, before) && Within(before, nodes)
      ensures FutureOk(jobs)
    {
    }

    lemma NodesLater(node: DAGNode, ns: map<Id, M.Node>, before: map<Id, DAGNode>)
      requires node.identifier !in before && nodes == before[node.identifier := node] && ns.Keys == before.Keys
      requires node.Own() <= nodeObjects && Stands(node, node.Abs(), before, workers, instances)
      requires forall id | id in before ::
        before[id].Own() <= nodeObjects && before[id].identifier == id
        && Stands(before[id], ns[id], before, workers, instances)
      ensures NodesOk(ns[node.identifier := node.Abs()])
    {
      hide Stands;
      StandsGrow(node, node.Abs(), before, workers, instances, nodes, workers, instances);
      forall id | id in before
        ensures NodeFits(before[id], ns[id])
      {
        StandsGrow(before[id], ns[id], before, workers, instances, nodes, workers, instances);
      }
      NodesJoin(node, ns, node.Abs());
    }

    lemma InstancesLater(node: DAGNode, orders: map<Id, int>, before: map<Id, DAGNode>, listed: map<Id, DAGNode>)
      requires node.identifier !in before && nodes == before[node.identifier := node] && orders.Keys == instances.Keys
      requires KnowsInstance(node.instance) && node.instance.nodes == listed[node.identifier := node]
      requires forall id | id in listed :: id in before && before[id] == listed[id]
      requires forall i | i in instances ::
        && instances[i].identifier == i && instances[i] in instanceObjects && instances[i].broker == this
        && instances[i].order == orders[i] && (instances[i] != node.instance ==> Lists(instances[i], before))
      requires forall id | id in before :: before[id].instance in instanceObjects && id in before[id].instance.nodes
      ensures InstancesOk(orders)
    {
    }

    /** The node enters the tables of this broker. */
    ghost method AddNode(node: DAGNode)
      requires NodesOk(state.nodes) && WorkersOk(state.workers) && QueuesOk(state.queues) && FutureOk(state.future)
      requires node.identifier !in nodes && Stands(node, node.Abs(), nodes, workers, instances)
      requires Separate() && this !in node.Own()
      modifies this`nodes, this`nodeObjects
      ensures NodesOk(state.nodes[node.identifier := node.Abs()]) && WorkersOk(state.workers)
           && QueuesOk(state.queues) && FutureOk(state.future)
      ensures nodeObjects == old(nodeObjects) + node.Own() && nodes == old(nodes)[node.identifier := node]
    {
      hide NodesOk, WorkersOk, QueuesOk, FutureOk, Queues, Works, QueueStands, Stands, FutureStands, DAGNode.Own;
      NodesEach(state.nodes);
      WorkersEach(state.workers);
      QueuesEach(state.queues);
      FutureEach(state.future);
      ghost var before := nodes;
      nodes := nodes[node.identifier := node];
      nodeObjects := nodeObjects + node.Own();
      NodesLater(node, state.nodes, before);
      WorkersLater(state.workers, before);
      QueuesLater(state.queues, before);
      FutureLater(state.future, before);
    }

    /** The node enters the tables and the list of its instance. */
    method ListNode(node: DAGNode)
      requires NodesOk(state.nodes) && WorkersOk(state.workers) && QueuesOk(state.queues) && FutureOk(state.future)
      requires InstancesOk(state.instances) && KnowsInstance(node.instance) && Separate()
      requires node.identifier !in nodes && Stands(node, node.Abs(), nodes, workers, instances)
      requires this !in node.Own() && node.Own() !! instanceObjects
      modifies this`nodes, this`nodeObjects, node.instance`nodes
      ensures NodesOk(state.nodes[node.identifier := node.Abs()]) && WorkersOk(state.workers)
           && QueuesOk(state.queues) && FutureOk(state.future) && InstancesOk(state.instances)
      ensures nodeObjects == old(nodeObjects) + node.Own() && nodes == old(nodes)[node.identifier := node]
    {
      hide NodesOk, WorkersOk, QueuesOk, FutureOk, InstancesOk, Stands, DAGNode.Own;
      InstancesEach(state.instances);
      assert node.instance in instanceObjects;
      ghost var before, listed := nodes, node.instance.nodes;
      AddNode(node);
      node.instance.nodes := node.instance.nodes[node.identifier := node];
      InstancesLater(node, state.instances, before, listed);
    }

    lemma FutureEach(jobs: multiset<M.Job>)
      requires FutureOk(jobs)
      ensures FutureStands(jobs, nodes)
    {
    }

    /** A new node enters the broker, without its back-links. */
    method Insert(node: DAGNode)
      requires Valid() && node.identifier !in nodes && KnowsInstance(node.instance)
      requires Stands(node, node.Abs(), nodes, workers, instances) && node.Own() !! Repr() && this !in node.Own()
      requires node.Abs() == M.FreshNode(state, node.Decl(), node.PolicyValue())
      modifies this, node.instance`nodes
      ensures Valid() && Repr() == old(Repr()) + node.Own() && Knows(node)
      ensures nodes == old(nodes)[node.identifier := node] && workers == old(workers) && instances == old(instances)
      ensures state == Planted(old(state), node.identifier, node.Decl(), node.PolicyValue())
    {
      hide NodesOk, WorkersOk, QueuesOk, FutureOk, InstancesOk, Stands, M.AllKnown, DAGNode.Abs, M.FreshNode;
      InstanceKnown(node.instance);
      PlantedKnows(state, node.identifier, node.Decl(), node.PolicyValue());
      ListNode(node);
      state := Planted(state, node.identifier, node.Decl(), node.PolicyValue());
    }

    lemma InstanceKnown(i: DAGInstance)
      requires Valid() && KnowsInstance(i)
      ensures i in instanceObjects && i.identifier in state.instances && i.broker == this
    {
    }

    method AppendDestination(source: DAGNode, node: DAGNode, ghost ns: map<Id, M.Node>)
      requires NodesOk(ns) && Knows(source) && Knows(node) && source.identifier in ns
      modifies source`destinations
      ensures NodesOk(Linked(ns, source.identifier, node.identifier))
    {
      hide NodesOk;
      NodesApart(source, ns);
      source.destinations := source.destinations + [node];
      NodesJoin(source, ns,
                ns[source.identifier].(destinations := ns[source.identifier].destinations + [node.identifier]));
    }

    method LinkBack(source: DAGNode, node: DAGNode)
      requires Valid() && Knows(source) && Knows(node)
      modifies this`state, source`destinations
      ensures Kept() && source.identifier in old(state).nodes
           && state == old(state).(nodes := Linked(old(state).nodes, source.identifier, node.identifier))
    {
      hide NodesOk, WorkersOk, InstancesOk, QueuesOk, FutureOk, M.AllKnown, Knows, DAGNode.PolicyValue, Linked;
      NodeValues(source);
      LinkedKnows(state, source.identifier, node.identifier);
      AppendDestination(source, node, state.nodes);
      state := state.(nodes := Linked(state.nodes, source.identifier, node.identifier));
    }

    /** The loop of NewNode over the sources. */
    method LinkAll(sources: seq<DAGNode>, node: DAGNode)
      requires Valid() && KnowsAll(sources) && Knows(node) && forall s | s in NodeIds(sources) :: s in state.nodes
      modifies this, Repr()
      ensures Kept()
      ensures state == old(state).(nodes := M.AddBackLinks(old(state).nodes, NodeIds(sources), node.identifier))
    {
      hide Valid, M.AddBackLinks, Linked;
      ghost var b := state;
      LinkNone(b.nodes, node.identifier);
      for i := 0 to |sources|
        invariant Kept() && state == b.(nodes := M.AddBackLinks(b.nodes, NodeIds(sources)[..i], node.identifier))
      {
        assert sources[i] in sources;
        NodeOwned(sources[i]);
        LinkMore(b.nodes, NodeIds(sources), i, node.identifier);
        LinkBack(sources[i], node);
      }
      assert NodeIds(sources)[..|sources|] == NodeIds(sources);
    }

    lemma NodeKeys()
      requires Valid()
      ensures nodes.Keys == state.nodes.Keys && M.AllKnown(state)
    {
    }

    lemma NodeOwned(node: DAGNode)
      requires Valid() && Knows(node)
      ensures node in nodeObjects && node.identifier in state.nodes
    {
      NodeValues(node);
    }

    lemma SourcesAreKnown(sources: seq<DAGNode>)
      requires Valid() && KnowsAll(sources)
      ensures forall s | s in NodeIds(sources) :: s in state.nodes
    {
      hide Valid;
      forall k | 0 <= k < |sources|
        ensures sources[k].identifier in state.nodes
      {
        assert sources[k] in sources;
        NodeOwned(sources[k]);
      }
    }

    /** The node object of NewNode; its policy, if any, becomes its own. */
    method BuildNode(identifier: Id, functionName: string, functionHash: string, queueName: string, taintName: string,
                     arguments: Obj, sources: seq<DAGNode>, instance: DAGInstance, retryPolicy: Retry.RetryPolicy?)
      returns (node: DAGNode)
      requires Valid() && KnowsInstance(instance) && KnowsAll(sources)
      requires retryPolicy != null ==> retryPolicy !in Repr()
      modifies PolicySet(retryPolicy)
      ensures fresh(node) && node.identifier == identifier && node.instance == instance && node.sources == sources
           && node.retryPolicy == retryPolicy
      ensures node.functionName == functionName && node.functionHash == functionHash && node.queueName == queueName
           && node.taintName == taintName && node.arguments == arguments
      ensures node.Decl() == M.Decl(functionName, functionHash, queueName, taintName, arguments, instance.identifier,
                                    NodeIds(sources))
      ensures Valid() && Stands(node, node.Abs(), nodes, workers, instances)
      ensures node.PolicyValue() == old(PolicyOf(retryPolicy))
      ensures node.Abs() == M.FreshNode(state, node.Decl(), node.PolicyValue())
    {
      hide NodesOk, WorkersOk, QueuesOk, FutureOk, InstancesOk, M.AllKnown;
      node := new DAGNode(identifier, functionName, functionHash, queueName, taintName, arguments, sources, instance,
                          retryPolicy, |state.created|);
      if retryPolicy != null {
        retryPolicy.holder := Some(identifier);
      }
    }

    /** A new node with its back-links. */
    method Plant(node: DAGNode)
      requires Valid() && node.identifier !in nodes && KnowsInstance(node.instance) && KnowsAll(node.sources)
      requires Stands(node, node.Abs(), nodes, workers, instances) && node.Own() !! Repr() && this !in node.Own()
      requires node.Abs() == M.FreshNode(state, node.Decl(), node.PolicyValue())
      modifies this, node.Own(), Repr()
      ensures Valid() && fresh(Repr() - old(Repr()) - node.Own()) && Knows(node)
      ensures nodes == old(nodes)[node.identifier := node] && workers == old(workers) && instances == old(instances)
      ensures SafetyOfSteps.MayInsert(old(state), node.identifier, node.Decl())
           && state == M.InsertNode(old(state), node.identifier, node.Decl(), old(node.PolicyValue()))
    {
      hide Valid, M.AddBackLinks, M.AllKnown, M.FreshNode, M.InsertNode, Stands, DAGNode.Abs;
      SourcesAreKnown(node.sources);
      InstanceKnown(node.instance);
      NodeKeys();
      InsertParts(state, node.identifier, node.Decl(), node.PolicyValue());
      Insert(node);
      LinkAll(node.sources, node);
    }

    // -------------------------------------------------------------- looking things up

    function GetWorker(identifier: Id): Worker?
      reads this
    {
      if identifier in workers then workers[identifier] else null
    }

    function GetInstance(identifier: Id): DAGInstance?
      reads this
    {
      if identifier in instances then instances[identifier] else null
    }

    lemma WorkerFound(w: Id)
      requires Valid() && w in state.workers
      ensures w in workers && KnowsWorker(workers[w]) && workers[w].identifier == w && workers[w] in workerObjects
      ensures workers[w].Abs() == state.workers[w]
    {
    }

    lemma InstanceFound(i: Id)
      requires Valid() && i in state.instances
      ensures i in instances && KnowsInstance(instances[i]) && instances[i].identifier == i
           && instances[i].broker == this
    {
    }

    /** A node is found under its identifier in its own instance. */
    lemma NodeFound(n: Id)
      requires Valid() && n in state.nodes
      ensures var i := state.nodes[n].decl.instance;
        && i in instances && instances[i] in instanceObjects
        && n in nodes && nodes[n].identifier == n && Knows(nodes[n]) && nodes[n].instance == instances[i]
        && n in instances[i].nodes && instances[i].nodes[n] == nodes[n]
    {
      hide QueuesOk, FutureOk, WorkersOk, M.AllKnown;
      assert NodeFits(nodes[n], state.nodes[n]);
      assert Lists(nodes[n].instance, nodes);
    }

    lemma PointersKnown()
      requires Valid()
      ensures M.DestinationsKnown(state) && M.SourcesKnown(state) && M.ClaimsKnown(state)
    {
      hide QueuesOk, FutureOk, InstancesOk, M.AllKnown;
      forall n, k | n in state.nodes && 0 <= k < |state.nodes[n].destinations|
        ensures state.nodes[n].destinations[k] in state.nodes
      {
        assert NodeFits(nodes[n], state.nodes[n]) && nodes[n].destinations[k] in nodes[n].destinations;
      }
      forall n, k | n in state.nodes && 0 <= k < |state.nodes[n].decl.sources|
        ensures state.nodes[n].decl.sources[k] in state.nodes
      {
        assert NodeFits(nodes[n], state.nodes[n]) && nodes[n].sources[k] in nodes[n].sources;
      }
      forall w, k | w in state.workers && 0 <= k < |state.workers[w].claimedWork|
        ensures state.workers[w].claimedWork[k] in state.nodes
      {
        assert WorkerFits(workers[w], state.workers[w]) && workers[w].claimedWork[k] in workers[w].claimedWork;
      }
    }

    /** The state has the value of every node object and the order of every instance object. */
    lemma StateValues()
      requires Valid()
      ensures nodes.Keys == state.nodes.Keys && instances.Keys == state.instances.Keys
      ensures forall n | n in nodes :: nodes[n].identifier == n && state.nodes[n] == nodes[n].Abs()
      ensures forall i | i in instances :: instances[i].identifier == i && state.instances[i] == instances[i].order
    {
      hide QueuesOk, FutureOk, WorkersOk, M.AllKnown;
      forall n | n in nodes
        ensures nodes[n].identifier == n && state.nodes[n] == nodes[n].Abs()
      {
        assert NodeFits(nodes[n], state.nodes[n]);
      }
      hide NodesOk;
    }

    lemma KnownIs(node: DAGNode)
      requires Knows(node)
      ensures node.identifier in nodes && nodes[node.identifier] == node
    {
    }

    /** What the value says about a node and its sources. */
    lemma MessageValues(node: DAGNode)
      requires Valid() && Knows(node) && M.SourcesKnown(state)
      ensures node.identifier in state.nodes && state.nodes[node.identifier].decl == node.Decl()
      ensures state.nodes[node.identifier].resolvedValue == node.resolvedValue
           && state.nodes[node.identifier].completed == node.completed
      ensures forall k | 0 <= k < |node.sources| :: var s := node.sources[k];
        && s.identifier in state.nodes && state.nodes[s.identifier].resolvedValue == s.resolvedValue
        && state.nodes[s.identifier].completed == s.completed
    {
      hide QueuesOk, FutureOk, InstancesOk, WorkersOk, M.AllKnown;
      assert NodeFits(node, state.nodes[node.identifier]);
      forall k | 0 <= k < |node.sources|
        ensures node.sources[k].identifier in state.nodes
             && state.nodes[node.sources[k].identifier] == node.sources[k].Abs()
      {
        assert node.sources[k] in node.sources;
        assert NodeFits(node.sources[k], state.nodes[node.sources[k].identifier]);
      }
    }

    lemma ResultValues()
      requires Valid()
      ensures forall n | n in nodes ::
        && n in state.nodes && state.nodes[n].completed == nodes[n].completed
        && state.nodes[n].resolvedValue == nodes[n].resolvedValue
    {
      hide QueuesOk, FutureOk, InstancesOk, WorkersOk, M.AllKnown;
      forall n | n in nodes
        ensures n in state.nodes && state.nodes[n] == nodes[n].Abs()
      {
        assert NodeFits(nodes[n], state.nodes[n]);
      }
    }

    lemma FenceValue(w: Id)
      requires Valid() && w in state.workers
      ensures w in workers && workers[w].invalidated == state.workers[w].invalidated
    {
    }

    method SetPing(w: Worker, now: int, ghost ws: map<Id, M.Worker>)
      requires WorkersOk(ws) && KnowsWorker(w)
      modifies w`lastPing
      ensures WorkersOk(ws[w.identifier := ws[w.identifier].(lastPing := M.Unix(now))]) && w.lastPing == M.Unix(now)
    {
      w.Ping(now);
      WorkersJoin(w, ws, ws[w.identifier].(lastPing := M.Unix(now)));
    }

    method PingWorker(w: Worker, now: int)
      requires Valid() && KnowsWorker(w)
      modifies this`state, w`lastPing
      ensures Kept() && w.identifier in old(state).workers && state == M.Ping(old(state), w.identifier, now)
           && w.lastPing == M.Unix(now)
    {
      hide NodesOk, WorkersOk, InstancesOk, QueuesOk, FutureOk, M.AllKnown, Knows, KnowsAll, Worker.Abs;
      WorkerValues(w);
      PingKnows(state, w.identifier, now);
      SetPing(w, now, state.workers);
      state := M.Ping(state, w.identifier, now);
    }
  }
}
