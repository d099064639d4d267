/**
 * The broker's memory as a value, and what each operation does to it. Node, worker and instance objects are maps
 * from their identifiers; a heap is the multiset of its jobs. Choices the program leaves open (the order in which Go
 * ranges over a map, which of several equal jobs a heap yields) are arguments.
 */
module Model {
  import opened Basics
  import opened Retry
  import opened Inspection

  const MAX_INT64 := 0x7FFF_FFFF_FFFF_FFFF
  const REQUIRED_PING_INTERVAL := 60

  /** What is fixed when a node is created. */
  datatype Decl = Decl(
    functionName: string, functionHash: string, queueName: string, taintName: string,
    arguments: Obj, instance: Id, sources: seq<Id>)

  /** rank is the position of the node in the order of creation; resolvedValue matters once completed. */
  datatype Node = Node(
    decl: Decl, rank: nat, destinations: seq<Id>, completed: bool, resolvedValue: Obj,
    dequeueTimestamp: int, dequeueWorker: Option<Id>, nextRetry: int,
    policy: Option<Policy>, failures: seq<string>)

  datatype Worker = Worker(
    excludeQueues: seq<string>, includeQueues: seq<string>, queueTolerations: seq<string>,
    lastPing: int, allowedQueues: set<string>, claimedWork: seq<Id>, invalidated: bool)

  datatype Job = Job(node: Id, priority: int)

  datatype Queue = Queue(taint: string, jobs: multiset<Job>)

  /** created lists the node identifiers in the order of creation. */
  datatype State = State(
    nodes: map<Id, Node>, created: seq<Id>, queues: map<string, Queue>, future: multiset<Job>,
    instances: map<Id, int>, workers: map<Id, Worker>)

  const EMPTY := State(map[], [], map[], multiset{}, map[], map[])

  const NO_VALUE := Raw("")

  /** The clock is read in milliseconds; time.Unix() is its whole seconds. */
  function Unix(now: int): int {
    now / 1000
  }

  ghost predicate AllKnown(b: State) {
    forall n | n in b.nodes :: b.nodes[n].decl.instance in b.instances
  }

  function Order(b: State, n: Id): int
    requires AllKnown(b) && n in b.nodes
  {
    b.instances[b.nodes[n].decl.instance]
  }

  predicate SourcesDone(b: State, n: Id)
    requires n in b.nodes
  {
    forall s | s in b.nodes[n].decl.sources :: s in b.nodes && b.nodes[s].completed
  }

  // ---------------------------------------------------------------- broker.go

  function ForgetAllowed(workers: map<Id, Worker>): map<Id, Worker> {
    map w | w in workers :: workers[w].(allowedQueues := {})
  }

  function WithQueue(b: State, q: string, taint: string): State {
    if q in b.queues then b
    else b.(queues := b.queues[q := Queue(taint, multiset{})], workers := ForgetAllowed(b.workers))
  }

  function MakeReady(b: State, n: Id): (r: State)
    requires AllKnown(b) && n in b.nodes
    ensures AllKnown(r) && r.nodes.Keys == b.nodes.Keys
  {
    var decl := b.nodes[n].decl;
    var c := WithQueue(b, decl.queueName, decl.taintName);
    var queue := c.queues[decl.queueName];
    c.(nodes := c.nodes[n := c.nodes[n].(nextRetry := -1)],
       queues := c.queues[decl.queueName := queue.(jobs := queue.jobs + multiset{Job(n, Order(b, n))})])
  }

  function Delay(b: State, n: Id): State
    requires n in b.nodes
  {
    b.(future := b.future + multiset{Job(n, b.nodes[n].nextRetry)})
  }

  lemma DelayKnows(b: State, n: Id)
    requires AllKnown(b) && n in b.nodes
    ensures AllKnown(Delay(b, n))
  {
  }

  predicate MustWait(node: Node, now: int) {
    node.nextRetry > -1 && now < node.nextRetry
  }

  function EnqueueNode(b: State, n: Id, now: int): (r: State)
    requires AllKnown(b) && n in b.nodes
    ensures AllKnown(r) && r.nodes.Keys == b.nodes.Keys
  {
    if MustWait(b.nodes[n], now) then Delay(b, n) else MakeReady(b, n)
  }

  function BackoffNode(b: State, n: Id, jitter: real, now: int): (r: State)
    requires AllKnown(b) && n in b.nodes
    ensures AllKnown(r) && r.nodes.Keys == b.nodes.Keys
  {
    var node := b.nodes[n];
    if node.policy.None? then b
    else
      var wait := Wait(node.policy.value, jitter);
      var asked := node.(policy := Some(Advance(node.policy.value)));
      if wait == -1 then b.(nodes := b.nodes[n := asked])
      else EnqueueNode(b.(nodes := b.nodes[n := asked.(nextRetry := now + wait)]), n, now)
  }

  predicate Tolerates(worker: Worker, taint: string) {
    taint == "" || taint in worker.queueTolerations
  }

  /** The include, exclude and taint filters over the present queues. */
  function Allowed(b: State, worker: Worker): set<string> {
    set q | q in b.queues
      && (worker.includeQueues == [] || q in worker.includeQueues)
      && q !in worker.excludeQueues
      && Tolerates(worker, b.queues[q].taint)
  }

  function EffectiveAllowed(b: State, worker: Worker): set<string> {
    if worker.allowedQueues != {} then worker.allowedQueues else Allowed(b, worker)
  }

  function FillCache(b: State, w: Id): State
    requires w in b.workers
  {
    b.(workers := b.workers[w := b.workers[w].(allowedQueues := EffectiveAllowed(b, b.workers[w]))])
  }

  /** Queue q may serve worker w, and job is a least job of all the queues that may. */
  ghost predicate LeastJob(b: State, w: Id, q: string, job: Job)
    requires w in b.workers
  {
    && q in EffectiveAllowed(b, b.workers[w]) && q in b.queues && job in b.queues[q].jobs
    && forall p, j | p in EffectiveAllowed(b, b.workers[w]) && p in b.queues && j in b.queues[p].jobs ::
         job.priority <= j.priority
  }

  /** Every queue that may serve w is empty. */
  ghost predicate NothingFor(b: State, w: Id)
    requires w in b.workers
  {
    forall p, j | p in EffectiveAllowed(b, b.workers[w]) && p in b.queues :: j !in b.queues[p].jobs
  }

  /** Worker w takes the given job out of queue q. */
  function Claim(b: State, w: Id, q: string, job: Job, now: int): State
    requires w in b.workers && q in b.queues && job.node in b.nodes
  {
    var c := FillCache(b, w);
    var worker, node, queue := c.workers[w], c.nodes[job.node], c.queues[q];
    c.(workers := c.workers[w := worker.(claimedWork := worker.claimedWork + [job.node])],
       nodes := c.nodes[job.node := node.(dequeueTimestamp := Unix(now), dequeueWorker := Some(w))],
       queues := c.queues[q := queue.(jobs := queue.jobs - multiset{job})])
  }

  function NewWorker(b: State, w: Id, exclude: seq<string>, include_: seq<string>, tolerations: seq<string>, now: int)
    : State
  {
    b.(workers := b.workers[w := Worker(exclude, include_, tolerations, Unix(now), {}, [], false)])
  }

  function NewInstance(b: State, i: Id): State {
    b.(instances := b.instances[i := |b.instances|])
  }

  function Ping(b: State, w: Id, now: int): State
    requires w in b.workers
  {
    b.(workers := b.workers[w := b.workers[w].(lastPing := Unix(now))])
  }

  // Garbage collection of workers.

  function Unclaim(node: Node): Node {
    node.(dequeueTimestamp := 0, dequeueWorker := None)
  }

  function Reclaim(b: State, n: Id, now: int): (r: State)
    requires AllKnown(b) && n in b.nodes
    ensures AllKnown(r) && r.nodes.Keys == b.nodes.Keys
  {
    EnqueueNode(b.(nodes := b.nodes[n := Unclaim(b.nodes[n])]), n, now)
  }

  function ReclaimAll(b: State, ns: seq<Id>, now: int): (r: State)
    requires AllKnown(b) && forall n | n in ns :: n in b.nodes
    ensures AllKnown(r) && r.nodes.Keys == b.nodes.Keys
  {
    if ns == [] then b else Reclaim(ReclaimAll(b, ns[..|ns| - 1], now), ns[|ns| - 1], now)
  }

  predicate Stale(worker: Worker, now: int) {
    worker.lastPing < Unix(now) - REQUIRED_PING_INTERVAL
  }

  function Retire(b: State, w: Id): State
    requires w in b.workers
  {
    b.(workers := b.workers[w := b.workers[w].(claimedWork := [], invalidated := true)])
  }

  ghost predicate ClaimsKnown(b: State) {
    forall w, n | w in b.workers && n in b.workers[w].claimedWork :: n in b.nodes
  }

  function CollectWorker(b: State, w: Id, now: int): (r: State)
    requires AllKnown(b) && ClaimsKnown(b)
    ensures AllKnown(r) && r.nodes.Keys == b.nodes.Keys
  {
    if w in b.workers && Stale(b.workers[w], now) then
      var c := ReclaimAll(b, b.workers[w].claimedWork, now);
      if w in c.workers then Retire(c, w) else c
    else b
  }

  // ---------------------------------------------------------------- dag_node.go

  function Without(ns: seq<Id>, n: Id): seq<Id> {
    Filter(ns, (m: Id) => m != n)
  }

  function ReleaseWorkerLock(b: State, n: Id): State
    requires n in b.nodes
  {
    var holder := b.nodes[n].dequeueWorker;
    var c := b.(nodes := b.nodes[n := Unclaim(b.nodes[n])]);
    if holder.Some? && holder.value in b.workers then
      var worker := b.workers[holder.value];
      c.(workers := b.workers[holder.value := worker.(claimedWork := Without(worker.claimedWork, n))])
    else c
  }

  function DependencyDidResolve(b: State, n: Id, now: int): (r: State)
    requires AllKnown(b) && n in b.nodes
    ensures AllKnown(r) && r.nodes.Keys == b.nodes.Keys
  {
    if SourcesDone(b, n) then EnqueueNode(b, n, now) else b
  }

  function NotifyAll(b: State, ds: seq<Id>, now: int): (r: State)
    requires AllKnown(b) && forall d | d in ds :: d in b.nodes
    ensures AllKnown(r) && r.nodes.Keys == b.nodes.Keys
  {
    if ds == [] then b else DependencyDidResolve(NotifyAll(b, ds[..|ds| - 1], now), ds[|ds| - 1], now)
  }

  function MarkCompleted(b: State, n: Id, value: Obj): State
    requires n in b.nodes
  {
    b.(nodes := b.nodes[n := b.nodes[n].(resolvedValue := value, completed := true)])
  }

  ghost predicate DestinationsKnown(b: State) {
    forall n, d | n in b.nodes && d in b.nodes[n].destinations :: d in b.nodes
  }

  function ExecutionDidResolve(b: State, n: Id, value: Obj, now: int): (r: State)
    requires AllKnown(b) && DestinationsKnown(b) && n in b.nodes
    ensures AllKnown(r) && r.nodes.Keys == b.nodes.Keys
  {
    NotifyAll(ReleaseWorkerLock(MarkCompleted(b, n, value), n), b.nodes[n].destinations, now)
  }

  function RecordFailure(b: State, n: Id, traceback: string): State
    requires n in b.nodes
  {
    b.(nodes := b.nodes[n := b.nodes[n].(failures := b.nodes[n].failures + [traceback])])
  }

  function ExecutionDidFail(b: State, n: Id, traceback: string, jitter: real, now: int): (r: State)
    requires AllKnown(b) && n in b.nodes
    ensures AllKnown(r) && r.nodes.Keys == b.nodes.Keys
  {
    BackoffNode(RecordFailure(ReleaseWorkerLock(b, n), n, traceback), n, jitter, now)
  }

  // ---------------------------------------------------------------- dag_instance.go

  /** One back-link from every listed source to n. */
  function AddBackLinks(nodes: map<Id, Node>, sources: seq<Id>, n: Id): (r: map<Id, Node>)
    requires forall s | s in sources :: s in nodes
    ensures r.Keys == nodes.Keys
    ensures forall m | m in nodes :: r[m] == nodes[m].(destinations := r[m].destinations)
  {
    if sources == [] then nodes
    else
      var rest := AddBackLinks(nodes, sources[..|sources| - 1], n);
      var s := sources[|sources| - 1];
      rest[s := rest[s].(destinations := rest[s].destinations + [n])]
  }

  function FreshNode(b: State, decl: Decl, policy: Option<Policy>): Node {
    Node(decl, |b.created|, [], false, NO_VALUE, 0, None, -1, policy, [])
  }

  /** The node is in the graph, with its back-links, but not yet looked at. */
  function InsertNode(b: State, n: Id, decl: Decl, policy: Option<Policy>): (r: State)
    requires AllKnown(b) && n !in b.nodes && decl.instance in b.instances
    requires forall s | s in decl.sources :: s in b.nodes
    ensures AllKnown(r) && r.nodes.Keys == b.nodes.Keys + {n}
  {
    b.(nodes := AddBackLinks(b.nodes[n := FreshNode(b, decl, policy)], decl.sources, n), created := b.created + [n])
  }

  function NewNode(b: State, n: Id, decl: Decl, policy: Option<Policy>, now: int): (r: State)
    requires AllKnown(b) && n !in b.nodes && decl.instance in b.instances
    requires forall s | s in decl.sources :: s in b.nodes
    ensures AllKnown(r) && r.nodes.Keys == b.nodes.Keys + {n}
  {
    DependencyDidResolve(InsertNode(b, n, decl, policy), n, now)
  }

  // ---------------------------------------------------------------- the two background ticks

  function CollectAll(b: State, ws: seq<Id>, now: int): (r: State)
    requires AllKnown(b) && ClaimsKnown(b)
    ensures AllKnown(r) && r.nodes.Keys == b.nodes.Keys && ClaimsKnown(r)
  {
    if ws == [] then b
    else
      var c := CollectAll(b, ws[..|ws| - 1], now);
      var r := CollectWorker(c, ws[|ws| - 1], now);
      assert ClaimsKnown(r) by { CollectWorkerClaims(c, ws[|ws| - 1], now); }
      r
  }

  /** Workers may have lost their cached queues, nothing else. */
  ghost predicate SameWorkers(b: State, c: State) {
    c.workers.Keys == b.workers.Keys
    && forall w | w in b.workers :: c.workers[w] == b.workers[w].(allowedQueues := c.workers[w].allowedQueues)
  }

  lemma EnqueueKeepsWorkers(b: State, n: Id, now: int)
    requires AllKnown(b) && n in b.nodes
    ensures SameWorkers(b, EnqueueNode(b, n, now))
  {
  }

  lemma {:induction false} ReclaimAllKeepsWorkers(b: State, ns: seq<Id>, now: int)
    requires AllKnown(b) && forall n | n in ns :: n in b.nodes
    ensures SameWorkers(b, ReclaimAll(b, ns, now))
  {
    if ns != [] {
      var init, n := ns[..|ns| - 1], ns[|ns| - 1];
      ReclaimAllKeepsWorkers(b, init, now);
      var c := ReclaimAll(b, init, now);
      EnqueueKeepsWorkers(c.(nodes := c.nodes[n := Unclaim(c.nodes[n])]), n, now);
    }
  }

  lemma CollectWorkerClaims(b: State, w: Id, now: int)
    requires AllKnown(b) && ClaimsKnown(b)
    ensures ClaimsKnown(CollectWorker(b, w, now))
  {
    if w in b.workers && Stale(b.workers[w], now) {
      ReclaimAllKeepsWorkers(b, b.workers[w].claimedWork, now);
    }
  }

  function Undelay(b: State, job: Job): State {
    b.(future := b.future - multiset{job})
  }

  /** One round of the drain loop: the job leaves the future heap and its node is enqueued. */
  function DrainOne(b: State, job: Job, now: int): (r: State)
    requires AllKnown(b) && job.node in b.nodes
    ensures AllKnown(r) && r.nodes.Keys == b.nodes.Keys
  {
    EnqueueNode(Undelay(b, job), job.node, now)
  }

  function DrainAll(b: State, jobs: seq<Job>, now: int): (r: State)
    requires AllKnown(b) && forall j | j in jobs :: j.node in b.nodes
    ensures AllKnown(r) && r.nodes.Keys == b.nodes.Keys
  {
    if jobs == [] then b else DrainOne(DrainAll(b, jobs[..|jobs| - 1], now), jobs[|jobs| - 1], now)
  }

  /** job is what PopItem may return from the heap with these contents. */
  ghost predicate Least(jobs: multiset<Job>, job: Job) {
    job in jobs && forall j | j in jobs :: job.priority <= j.priority
  }

  /**
   * The rounds made so far are ones the loop may make: each popped job is a least job of the future heap, is due, and
   * its node does not have to wait (re-entering the future heap would take a lock the loop already holds).
   */
  ghost predicate DrainRounds(b: State, jobs: seq<Job>, now: int)
    requires AllKnown(b) && forall j | j in jobs :: j.node in b.nodes
  {
    jobs == [] ||
      var before := DrainAll(b, jobs[..|jobs| - 1], now);
      var job := jobs[|jobs| - 1];
      && DrainRounds(b, jobs[..|jobs| - 1], now)
      && Least(before.future, job) && job.priority <= now
      && !MustWait(before.nodes[job.node], now)
  }

  /** The round the loop does not survive: job comes out of the heap, is due, and its node has to wait again. */
  ghost predicate Reenters(b: State, job: Job, now: int) {
    && Least(b.future, job) && job.priority <= now
    && job.node in b.nodes && MustWait(b.nodes[job.node], now)
  }

  /** A due job whose node has got a later retry time since the job was pushed. */
  ghost predicate Overtaken(b: State, job: Job, now: int) {
    && job in b.future && job.priority <= now
    && job.node in b.nodes && MustWait(b.nodes[job.node], now)
  }

  /** The loop stops: nothing in the future heap is due. */
  ghost predicate NothingDue(b: State, now: int) {
    forall j | j in b.future :: j.priority > now
  }

  // ---------------------------------------------------------------- server.go

  datatype SourceMessage = SourceMessage(identifier: Id, resolvedValue: Obj, completed: bool)

  datatype NodeMessage = NodeMessage(
    identifier: Id, functionName: string, functionHash: string, queueName: string, taintName: string,
    arguments: Obj, resolvedValue: Obj, sources: seq<SourceMessage>, completed: bool, instanceId: Id)

  function SourceMessages(b: State, sources: seq<Id>): seq<SourceMessage>
    requires forall s | s in sources :: s in b.nodes
  {
    seq(|sources|, i requires 0 <= i < |sources| =>
      SourceMessage(sources[i], b.nodes[sources[i]].resolvedValue, b.nodes[sources[i]].completed))
  }

  ghost predicate SourcesKnown(b: State) {
    forall n, s | n in b.nodes && s in b.nodes[n].decl.sources :: s in b.nodes
  }

  function NodeToMessage(b: State, n: Id): NodeMessage
    requires SourcesKnown(b) && n in b.nodes
  {
    var node := b.nodes[n];
    NodeMessage(n, node.decl.functionName, node.decl.functionHash, node.decl.queueName, node.decl.taintName,
                node.decl.arguments, node.resolvedValue, SourceMessages(b, node.decl.sources), node.completed,
                node.decl.instance)
  }

  /** resolved_values on the worker: the values of the sources in the message, by identifier. */
  function SourceValues(sources: seq<SourceMessage>): map<Id, Obj> {
    if sources == [] then map[]
    else
      var last := sources[|sources| - 1];
      SourceValues(sources[..|sources| - 1])[last.identifier := last.resolvedValue]
  }

  function SubmitWork(b: State, w: Id, n: Id, value: Obj, now: int): (r: State)
    requires AllKnown(b) && DestinationsKnown(b) && w in b.workers && n in b.nodes
    ensures AllKnown(r) && r.nodes.Keys == b.nodes.Keys
  {
    if b.workers[w].invalidated then b else ExecutionDidResolve(b, n, value, now)
  }

  function SubmitFailure(b: State, w: Id, n: Id, traceback: string, jitter: real, now: int): (r: State)
    requires AllKnown(b) && w in b.workers && n in b.nodes
    ensures AllKnown(r) && r.nodes.Keys == b.nodes.Keys
  {
    if b.workers[w].invalidated then b else ExecutionDidFail(b, n, traceback, jitter, now)
  }
}
