/**
 * The broker with its clients and clock as a state machine: every remote call and every background tick is one event.
 * Beside the broker's memory a system remembers what the workers were sent and have not answered yet.
 */
module Runs {
  import opened Basics
  import opened Retry
  import opened Inspection
  import opened Model
  import opened Safety
  import opened SafetyOfSteps

  /**
   * sent: every message a worker ever got from GetWork. open: handed out and not yet answered by that worker.
   * notBefore: the time before which a node must not be handed out again. stalled: the drain loop waits for the lock
   * of the future heap, which it holds itself, and so it does forever.
   */
  datatype System = System(
    b: State, sent: set<(Id, NodeMessage)>, open: set<(Id, Id)>, clock: int, notBefore: map<Id, int>, stalled: bool)

  datatype Action =
    | CreateWorker(worker: Id, excludeQueues: seq<string>, includeQueues: seq<string>, queueTolerations: seq<string>)
    | CreateInstance(instance: Id)
    | CreateNode(node: Id, decl: Decl, retry: Option<RetryMessage>)
    | Ping(worker: Id)
    | GetWork(worker: Id, queue: string, job: Job)
    | GetNothing(worker: Id)
    | SubmitWork(worker: Id, message: NodeMessage, value: Obj)
    | SubmitFailure(worker: Id, message: NodeMessage, traceback: string, jitter: real)
    | CollectWorkers(order: seq<Id>)
    | QueueFuture(jobs: seq<Job>)
    | Stall(jobs: seq<Job>, job: Job)

  /** now is the one clock reading of the event. */
  datatype Event = Event(now: int, action: Action)

  // ---------------------------------------------------------------- invariant of all runs

  /** Queue names are never empty and orders never reach the sentinel of PopNextNode. */
  ghost predicate Named(b: State) {
    (forall n | n in b.nodes :: b.nodes[n].decl.queueName != "") && |b.instances| <= MAX_INT64
  }

  /** The message describes a node whose sources are complete. */
  ghost predicate Describes(b: State, m: NodeMessage) {
    && m.identifier in b.nodes && SourcesDone(b, m.identifier)
    && var decl := b.nodes[m.identifier].decl;
       m.functionName == decl.functionName && m.arguments == decl.arguments && m.instanceId == decl.instance
  }

  ghost predicate SoundSystem(s: System) {
    && Sound(s.b) && Named(s.b)
    && (forall w, m | (w, m) in s.sent :: Describes(s.b, m))
    && s.notBefore.Keys == s.b.nodes.Keys
  }

  const START := System(EMPTY, {}, {}, 0, map[], false)

  // ---------------------------------------------------------------- events

  /** While the lock of the future heap is held, a call that pushes a job on that heap does not return. */
  ghost predicate Returns(b: State, e: Event)
    requires AllKnown(b) && DestinationsKnown(b) && ClaimsKnown(b)
  {
    match e.action
    case SubmitWork(w, m, value) =>
      w in b.workers && m.identifier in b.nodes
      && Model.SubmitWork(b, w, m.identifier, value, e.now).future == b.future
    case SubmitFailure(w, m, traceback, jitter) =>
      w in b.workers && m.identifier in b.nodes
      && Model.SubmitFailure(b, w, m.identifier, traceback, jitter, e.now).future == b.future
    case CollectWorkers(order) => CollectAll(b, order, e.now).future == b.future
    case QueueFuture(_) => false
    case Stall(_, _) => false
    case _ => true
  }

  /** What the callers and the two loops respect. */
  ghost predicate Enabled(s: System, e: Event)
    requires Sound(s.b)
  {
    SoundBasics(s.b);
    var b := s.b;
    && s.clock <= e.now
    && (s.stalled ==> Returns(b, e))
    && match e.action
       case CreateWorker(w, _, _, _) => w !in b.workers
       case CreateInstance(i) => i !in b.instances && |b.instances| < MAX_INT64
       case CreateNode(n, decl, _) =>
         && MayInsert(b, n, decl) && decl.queueName != ""
         && (forall x | x in decl.sources :: b.nodes[x].decl.instance == decl.instance)
       case Ping(w) => w in b.workers
       case GetWork(w, q, job) => w in b.workers && !b.workers[w].invalidated && LeastJob(b, w, q, job)
       case GetNothing(w) => w in b.workers && (b.workers[w].invalidated || NothingFor(b, w))
       case SubmitWork(w, m, _) => w in b.workers && (w, m) in s.sent
       case SubmitFailure(w, m, _, jitter) => w in b.workers && (w, m) in s.sent && Jitter(jitter)
       case CollectWorkers(order) => NoDup(order) && forall w :: w in order <==> w in b.workers
       case QueueFuture(jobs) =>
         && (forall j | j in jobs :: j.node in b.nodes)
         && DrainRounds(b, jobs, e.now) && NothingDue(DrainAll(b, jobs, e.now), e.now)
       case Stall(jobs, job) =>
         && (forall j | j in jobs :: j.node in b.nodes)
         && DrainRounds(b, jobs, e.now) && Reenters(DrainAll(b, jobs, e.now), job, e.now)
  }

  /** The broker's memory after the event. */
  ghost function After(s: System, e: Event): State
    requires SoundSystem(s) && Enabled(s, e)
  {
    SoundBasics(s.b);
    var b := s.b;
    match e.action
    case CreateWorker(w, exclude, include_, tolerations) => NewWorker(b, w, exclude, include_, tolerations, e.now)
    case CreateInstance(i) => NewInstance(b, i)
    case CreateNode(n, decl, retry) => NewNode(b, n, decl, PolicyFor(retry), e.now)
    case Ping(w) => Model.Ping(b, w, e.now)
    case GetWork(w, q, job) => QueuedJobIsDue(b, q, job); Claim(b, w, q, job, e.now)
    case GetNothing(w) => if b.workers[w].invalidated then b else FillCache(b, w)
    case SubmitWork(w, m, value) => Model.SubmitWork(b, w, m.identifier, value, e.now)
    case SubmitFailure(w, m, traceback, jitter) => Model.SubmitFailure(b, w, m.identifier, traceback, jitter, e.now)
    case CollectWorkers(order) => CollectAll(b, order, e.now)
    case QueueFuture(jobs) => DrainAll(b, jobs, e.now)
    case Stall(jobs, job) => Undelay(DrainAll(b, jobs, e.now), job)
  }

  lemma QueuedJobIsDue(b: State, q: string, job: Job)
    requires Sound(b) && q in b.queues && job in b.queues[q].jobs
    ensures job.node in b.nodes && SourcesDone(b, job.node)
  {
  }

  /** The earliest time at which a node that fails now may be handed out again. */
  function Earliest(node: Node, jitter: real, now: int): int {
    if node.policy.Some? && Wait(node.policy.value, jitter) != -1 then now + Wait(node.policy.value, jitter) else now
  }

  ghost function Next(s: System, e: Event): System
    requires SoundSystem(s) && Enabled(s, e)
  {
    var b := After(s, e);
    match e.action
    case CreateNode(n, _, _) => s.(b := b, clock := e.now, notBefore := s.notBefore[n := e.now])
    case GetWork(w, q, job) =>
      ClaimKeepsSound(s.b, w, q, job, e.now);
      SoundBasics(b);
      s.(b := b, clock := e.now,
         sent := s.sent + {(w, NodeToMessage(b, job.node))}, open := s.open + {(w, job.node)})
    case SubmitWork(w, m, _) => s.(b := b, clock := e.now, open := s.open - {(w, m.identifier)})
    case SubmitFailure(w, m, _, jitter) =>
      s.(b := b, clock := e.now, open := s.open - {(w, m.identifier)},
         notBefore := if s.b.workers[w].invalidated then s.notBefore
                      else s.notBefore[m.identifier := Earliest(s.b.nodes[m.identifier], jitter, e.now)])
    case Stall(_, _) => s.(b := b, clock := e.now, stalled := true)
    case _ => s.(b := b, clock := e.now)
  }

  // ---------------------------------------------------------------- all events keep the system sound

  /** Nodes are only added, declarations never change, completions are never undone. */
  lemma SameShapeExtends(b: State, c: State)
    requires SameShape(b, c)
    ensures Extends(b, c) && c.nodes.Keys == b.nodes.Keys && c.instances == b.instances
  {
  }

  lemma ExtendsTransitive(b: State, c: State, d: State)
    requires Extends(b, c) && Extends(c, d)
    ensures Extends(b, d)
  {
  }

  ghost predicate Kept(b: State, c: State) {
    Sound(c) && Extends(b, c)
  }

  /** Completions and values are as before, except that node n may now be completed with the given value. */
  ghost predicate OnlyResult(b: State, c: State, n: Id, value: Obj) {
    forall m | m in c.nodes && c.nodes[m].completed ::
      || (m in b.nodes && b.nodes[m].completed && c.nodes[m].resolvedValue == b.nodes[m].resolvedValue)
      || (m == n && c.nodes[m].resolvedValue == value)
  }

  ghost predicate SameResults(b: State, c: State) {
    forall m | m in c.nodes && c.nodes[m].completed ::
      m in b.nodes && b.nodes[m].completed && c.nodes[m].resolvedValue == b.nodes[m].resolvedValue
  }

  lemma KeepFromShape(b: State, c: State)
    requires Sound(c) && SameShape(b, c)
    ensures Kept(b, c) && c.nodes.Keys == b.nodes.Keys && c.instances == b.instances && SameResults(b, c)
  {
    hide Sound;
    SameShapeExtends(b, c);
  }

  lemma ResolveExtends(b: State, n: Id, value: Obj, now: int)
    requires Sound(b) && n in b.nodes && SourcesDone(b, n)
    ensures AllKnown(b) && DestinationsKnown(b)
    ensures Kept(b, ExecutionDidResolve(b, n, value, now))
    ensures ExecutionDidResolve(b, n, value, now).instances == b.instances
  {
    SoundBasics(b);
    ResolveKeepsSound(b, n, value, now);
    MarkKeepsSound(b, n, value);
    var c := MarkCompleted(b, n, value);
    ReleaseKeepsSound(c, n);
    var d := ReleaseWorkerLock(c, n);
    SoundBasics(c);
    SoundBasics(d);
    assert c.nodes[n].destinations == b.nodes[n].destinations && c.instances == b.instances;
    hide Sound, AllKnown, DestinationsKnown, SourcesDone, SameButRetry, NotifyAll, ReleaseWorkerLock, SameShape,
         Extends;
    NotifyAllKeepsNodes(d, b.nodes[n].destinations, now);
    var r := NotifyAll(d, b.nodes[n].destinations, now);
    SameButRetryShape(d, r);
    SameShapeTransitive(c, d, r);
    SameShapeExtends(c, r);
    ExtendsTransitive(b, c, r);
  }

  /** Resolving a node gives it the submitted value and touches no other result. */
  lemma ResolveResults(b: State, n: Id, value: Obj, now: int)
    requires AllKnown(b) && DestinationsKnown(b) && n in b.nodes
    ensures OnlyResult(b, ExecutionDidResolve(b, n, value, now), n, value)
  {
    hide ReleaseWorkerLock, NotifyAll;
    var c := MarkCompleted(b, n, value);
    ReleaseNodes(c, n);
    var d := ReleaseWorkerLock(c, n);
    assert d.nodes == b.nodes[n := Unclaim(c.nodes[n])];
    hide MarkCompleted;
    NotifyAllKeepsNodes(d, b.nodes[n].destinations, now);
  }

  lemma ReleaseNodes(b: State, n: Id)
    requires n in b.nodes
    ensures ReleaseWorkerLock(b, n).nodes == b.nodes[n := Unclaim(b.nodes[n])]
    ensures ReleaseWorkerLock(b, n).instances == b.instances
  {
  }

  lemma NewNodeExtends(b: State, n: Id, decl: Decl, policy: Option<Policy>, now: int)
    requires Sound(b) && MayInsert(b, n, decl)
    ensures Kept(b, NewNode(b, n, decl, policy, now)) && NewNode(b, n, decl, policy, now).instances == b.instances
    ensures NewNode(b, n, decl, policy, now).nodes[n].decl == decl
  {
    NewNodeKeepsSound(b, n, decl, policy, now);
    InsertKeepsOthers(b, n, decl, policy);
    hide Sound, SameShape, SameButRetry;
    var c := InsertNode(b, n, decl, policy);
    assert Extends(b, c) && c.nodes[n].decl == decl && c.instances == b.instances;
    var r := NewNode(b, n, decl, policy, now);
    EnqueueKeepsNodes(c, n, now);
    SameButRetryShape(c, EnqueueNode(c, n, now));
    SameShapeExtends(c, EnqueueNode(c, n, now));
    NewNodeDecl(c, EnqueueNode(c, n, now), n);
    hide Extends, InsertNode, EnqueueNode, SourcesDone;
    if SourcesDone(c, n) {
      ExtendsTransitive(b, c, EnqueueNode(c, n, now));
    }
  }

  lemma NewNodeResults(b: State, n: Id, decl: Decl, policy: Option<Policy>, now: int)
    requires MayInsert(b, n, decl)
    ensures SameResults(b, NewNode(b, n, decl, policy, now))
  {
  }

  lemma NewNodeDecl(b: State, c: State, n: Id)
    requires SameShape(b, c) && n in b.nodes
    ensures c.nodes[n].decl == b.nodes[n].decl
  {
  }

  lemma ClaimKeepsShape(b: State, w: Id, q: string, job: Job, now: int)
    requires w in b.workers && q in b.queues && job.node in b.nodes
    ensures SameShape(b, Claim(b, w, q, job, now))
  {
  }

  lemma NamedStable(b: State, c: State)
    requires Named(b) && Extends(b, c) && c.instances == b.instances
    requires forall n | n in c.nodes :: n in b.nodes || c.nodes[n].decl.queueName != ""
    ensures Named(c)
  {
  }

  lemma DescribesStable(b: State, c: State, m: NodeMessage)
    requires Describes(b, m) && Extends(b, c)
    ensures Describes(c, m)
  {
  }

  /** The event keeps the memory sound and only extends the graph. */
  ghost predicate EventKeeps(s: System, e: Event)
    requires SoundSystem(s) && Enabled(s, e)
  {
    && Kept(s.b, After(s, e))
    && (e.action.CreateInstance? || After(s, e).instances == s.b.instances)
    && (e.action.CreateNode? || After(s, e).nodes.Keys == s.b.nodes.Keys)
    && (e.action.SubmitWork? || SameResults(s.b, After(s, e)))
  }

  lemma CreateWorkerKeeps(s: System, e: Event)
    requires SoundSystem(s) && Enabled(s, e) && e.action.CreateWorker?
    ensures EventKeeps(s, e)
  {
    SoundBasics(s.b);
    hide Sound, Describes, SameShape, SameResults;
    var a := e.action;
    NewWorkerKeepsSound(s.b, a.worker, a.excludeQueues, a.includeQueues, a.queueTolerations, e.now);
    SameNodesShape(s.b, After(s, e));
    KeepFromShape(s.b, After(s, e));
  }

  lemma CreateInstanceKeeps(s: System, e: Event)
    requires SoundSystem(s) && Enabled(s, e) && e.action.CreateInstance?
    ensures EventKeeps(s, e)
  {
    SoundBasics(s.b);
    hide Sound, Describes, SameResults;
    NewInstanceKeepsSound(s.b, e.action.instance);
    SameNodesResults(s.b, After(s, e));
  }

  lemma SameNodesResults(b: State, c: State)
    requires c.nodes == b.nodes
    ensures SameResults(b, c) && Extends(b, c)
  {
  }

  lemma CreateNodeKeeps(s: System, e: Event)
    requires SoundSystem(s) && Enabled(s, e) && e.action.CreateNode?
    ensures EventKeeps(s, e)
  {
    SoundBasics(s.b);
    hide Sound, NewNode, Describes, SameResults;
    NewNodeExtends(s.b, e.action.node, e.action.decl, PolicyFor(e.action.retry), e.now);
    NewNodeResults(s.b, e.action.node, e.action.decl, PolicyFor(e.action.retry), e.now);
  }

  lemma PingEventKeeps(s: System, e: Event)
    requires SoundSystem(s) && Enabled(s, e) && e.action.Ping?
    ensures EventKeeps(s, e)
  {
    hide Sound, Describes, SameShape, SameResults;
    PingKeepsSound(s.b, e.action.worker, e.now);
    SameNodesShape(s.b, After(s, e));
    KeepFromShape(s.b, After(s, e));
  }

  lemma GetNothingKeeps(s: System, e: Event)
    requires SoundSystem(s) && Enabled(s, e) && e.action.GetNothing?
    ensures EventKeeps(s, e)
  {
    hide Sound, Describes, SameShape, SameResults, NothingFor, EffectiveAllowed;
    FillCacheKeepsSound(s.b, e.action.worker);
    SameNodesShape(s.b, After(s, e));
    KeepFromShape(s.b, After(s, e));
  }

  lemma GetWorkKeeps(s: System, e: Event)
    requires SoundSystem(s) && Enabled(s, e) && e.action.GetWork?
    ensures EventKeeps(s, e)
  {
    SoundBasics(s.b);
    hide Sound, Describes, SameShape, SameResults, Claim, LeastJob;
    var a := e.action;
    LeastJobIsQueued(s.b, a.worker, a.queue, a.job);
    ClaimKeepsSound(s.b, a.worker, a.queue, a.job, e.now);
    ClaimKeepsShape(s.b, a.worker, a.queue, a.job, e.now);
    KeepFromShape(s.b, After(s, e));
  }

  lemma LeastJobIsQueued(b: State, w: Id, q: string, job: Job)
    requires w in b.workers && LeastJob(b, w, q, job)
    ensures q in b.queues && job in b.queues[q].jobs
  {
  }

  lemma SubmitWorkKeeps(s: System, e: Event)
    requires SoundSystem(s) && Enabled(s, e) && e.action.SubmitWork?
    ensures EventKeeps(s, e)
  {
    SoundBasics(s.b);
    hide Sound, ExecutionDidResolve;
    ResolveExtends(s.b, e.action.message.identifier, e.action.value, e.now);
  }

  lemma SubmitFailureKeeps(s: System, e: Event)
    requires SoundSystem(s) && Enabled(s, e) && e.action.SubmitFailure?
    ensures EventKeeps(s, e)
  {
    SoundBasics(s.b);
    var n := e.action.message.identifier;
    FailKeepsSound(s.b, n, e.action.traceback, e.action.jitter, e.now);
    SameNodesShape(s.b, s.b);
    hide Sound, ExecutionDidFail, SameShape, SameResults;
    KeepFromShape(s.b, After(s, e));
  }

  lemma TickKeeps(s: System, e: Event)
    requires SoundSystem(s) && Enabled(s, e)
    requires e.action.CollectWorkers? || e.action.QueueFuture?
    ensures EventKeeps(s, e)
  {
    hide Sound, CollectAll, DrainAll, SameShape, SameResults, Describes, NothingDue, DrainRounds;
    SoundBasics(s.b);
    match e.action {
      case CollectWorkers(order) => CollectAllKeepsSound(s.b, order, e.now);
      case QueueFuture(jobs) => DrainAllKeepsSound(s.b, jobs, e.now);
    }
    KeepFromShape(s.b, After(s, e));
  }

  lemma StallKeeps(s: System, e: Event)
    requires SoundSystem(s) && Enabled(s, e) && e.action.Stall?
    ensures EventKeeps(s, e)
  {
    hide Sound, DrainAll, SameShape, SameResults, Describes, DrainRounds;
    SoundBasics(s.b);
    DrainAllKeepsSound(s.b, e.action.jobs, e.now);
    var c := DrainAll(s.b, e.action.jobs, e.now);
    UnqueueKeepsSound(c, e.action.job);
    SameNodesShape(c, After(s, e));
    SameShapeTransitive(s.b, c, After(s, e));
    KeepFromShape(s.b, After(s, e));
  }

  lemma AfterKeeps(s: System, e: Event)
    requires SoundSystem(s) && Enabled(s, e)
    ensures EventKeeps(s, e)
  {
    hide SoundSystem, Enabled, EventKeeps;
    match e.action {
      case CreateWorker(_, _, _, _) => CreateWorkerKeeps(s, e);
      case CreateInstance(_) => CreateInstanceKeeps(s, e);
      case CreateNode(_, _, _) => CreateNodeKeeps(s, e);
      case Ping(_) => PingEventKeeps(s, e);
      case GetWork(_, _, _) => GetWorkKeeps(s, e);
      case GetNothing(_) => GetNothingKeeps(s, e);
      case SubmitWork(_, _, _) => SubmitWorkKeeps(s, e);
      case SubmitFailure(_, _, _, _) => SubmitFailureKeeps(s, e);
      case CollectWorkers(_) => TickKeeps(s, e);
      case QueueFuture(_) => TickKeeps(s, e);
      case Stall(_, _) => StallKeeps(s, e);
    }
  }

  lemma CreatedDecl(s: System, e: Event)
    requires SoundSystem(s) && Enabled(s, e) && e.action.CreateNode?
    ensures After(s, e).nodes.Keys == s.b.nodes.Keys + {e.action.node}
    ensures e.action.node in After(s, e).nodes && After(s, e).nodes[e.action.node].decl == e.action.decl
  {
    SoundBasics(s.b);
    hide Sound, NewNode, Describes;
    NewNodeExtends(s.b, e.action.node, e.action.decl, PolicyFor(e.action.retry), e.now);
  }

  lemma NextKeepsNamed(s: System, e: Event)
    requires SoundSystem(s) && Enabled(s, e)
    ensures Named(After(s, e))
  {
    AfterKeeps(s, e);
    var c := After(s, e);
    hide Sound, Describes;
    if e.action.CreateInstance? {
      assert c.instances.Keys == s.b.instances.Keys + {e.action.instance};
    } else if e.action.CreateNode? {
      CreatedDecl(s, e);
      NamedStable(s.b, c);
    } else {
      NamedStable(s.b, c);
    }
  }

  lemma MessageDescribes(b: State, n: Id)
    requires Sound(b) && n in b.nodes && SourcesDone(b, n)
    ensures SourcesKnown(b) && Describes(b, NodeToMessage(b, n))
  {
    SoundBasics(b);
  }

  lemma NewMessage(s: System, e: Event, w: Id, m: NodeMessage)
    requires SoundSystem(s) && Enabled(s, e) && (w, m) in Next(s, e).sent && (w, m) !in s.sent
    ensures e.action.GetWork? && e.action.job.node in s.b.nodes && SourcesDone(s.b, e.action.job.node)
    ensures e.action.job.node in After(s, e).nodes && SourcesKnown(After(s, e))
         && m == NodeToMessage(After(s, e), e.action.job.node)
  {
    hide Sound, After, Describes, NodeToMessage;
    AfterKeeps(s, e);
    QueuedJobIsDue(s.b, e.action.queue, e.action.job);
    SoundBasics(After(s, e));
  }

  lemma NextKeepsMessages(s: System, e: Event, w: Id, m: NodeMessage)
    requires SoundSystem(s) && Enabled(s, e) && (w, m) in Next(s, e).sent
    ensures Describes(After(s, e), m)
  {
    hide Sound, Enabled, After, Next, Extends, Describes, Named, SourcesKnown, SourcesDone;
    AfterKeeps(s, e);
    var c := After(s, e);
    if (w, m) in s.sent {
      DescribesStable(s.b, c, m);
    } else {
      NewMessage(s, e, w, m);
      SourcesStayDone(s.b, c, e.action.job.node);
      MessageDescribes(c, e.action.job.node);
    }
  }

  lemma SystemFacts(s: System)
    requires SoundSystem(s)
    ensures Sound(s.b) && Named(s.b) && s.notBefore.Keys == s.b.nodes.Keys
  {
  }

  lemma AssembleSystem(s: System)
    requires Sound(s.b) && Named(s.b) && s.notBefore.Keys == s.b.nodes.Keys
    requires forall w, m | (w, m) in s.sent :: Describes(s.b, m)
    ensures SoundSystem(s)
  {
  }

  lemma AnswersKnown(s: System, e: Event)
    requires SoundSystem(s) && Enabled(s, e) && (e.action.SubmitWork? || e.action.SubmitFailure?)
    ensures e.action.worker in s.b.workers && Describes(s.b, e.action.message)
  {
    hide Sound, Describes;
  }

  lemma NextKeepsDomain(s: System, e: Event)
    requires SoundSystem(s) && Enabled(s, e)
    ensures Next(s, e).notBefore.Keys == After(s, e).nodes.Keys
  {
    hide SoundSystem, Enabled, Sound, Named, Kept, After;
    AfterKeeps(s, e);
    SystemFacts(s);
    if e.action.CreateNode? {
      CreatedDecl(s, e);
    } else if e.action.SubmitFailure? {
      AnswersKnown(s, e);
    }
  }

  lemma NextIsAfter(s: System, e: Event)
    requires SoundSystem(s) && Enabled(s, e)
    ensures Next(s, e).b == After(s, e)
  {
    hide SoundSystem, Enabled, Sound, After;
  }

  /** The invariant of all runs: no assumption on repeated sources or repeated answers. */
  lemma NextKeepsSound(s: System, e: Event)
    requires SoundSystem(s) && Enabled(s, e)
    ensures SoundSystem(Next(s, e))
  {
    hide SoundSystem, Sound, Describes, Named, Enabled, Extends, After, Next;
    AfterKeeps(s, e);
    NextKeepsNamed(s, e);
    NextKeepsDomain(s, e);
    NextIsAfter(s, e);
    var t := Next(s, e);
    forall w, m | (w, m) in t.sent
      ensures Describes(t.b, m)
    {
      NextKeepsMessages(s, e, w, m);
    }
    AssembleSystem(t);
  }
}
