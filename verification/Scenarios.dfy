/** Two short runs from the empty broker, event by event, up to the state that an example needs. */
module Scenarios {
  import opened Basics
  import opened Retry
  import opened Inspection
  import opened Model
  import opened Safety
  import opened SafetyOfSteps
  import opened Runs
  import opened Discipline
  import opened Histories

  // ---------------------------------------------------------------- states of the two runs

  const ARGUMENTS := Raw("()")
  const ORDERS := map["i" := 0, "j" := 1]

  /** A node of instance i; one of instance j, with a taint; one whose call got the first promise in two arguments. */
  const FIRST := Decl("f", "", "q", "", ARGUMENTS, "i", [])
  const LATER := Decl("f", "", "q", "gpu", ARGUMENTS, "j", [])
  const TWICE := Decl("g", "", "q", "", ARGUMENTS, "i", ["a", "a"])

  const IDLE := Worker([], [], [], 0, {}, [], false)

  function Fresh(decl: Decl, rank: nat, destinations: seq<Id>, policy: Option<Policy>): Node {
    Node(decl, rank, destinations, false, NO_VALUE, 0, None, -1, policy, [])
  }

  function Scene(nodes: map<Id, Node>, created: seq<Id>, ready: multiset<Job>, future: multiset<Job>,
                 w: Worker, v: Worker): State {
    State(nodes, created, map["q" := Queue("", ready)], future, ORDERS, map["w" := w, "v" := v])
  }

  function Hired(): State {
    State(map[], [], map[], multiset{}, ORDERS, map["w" := IDLE, "v" := IDLE])
  }

  lemma HiredIs()
    ensures NewWorker(NewWorker(NewInstance(NewInstance(EMPTY, "i"), "j"), "w", [], [], [], 0), "v", [], [], [], 0)
         == Hired()
  {
    assert |map["i" := 0]| == 1;
  }

  /** A worker without lists may use the one queue there is. */
  predicate Unrestricted(worker: Worker) {
    && worker.excludeQueues == [] && worker.includeQueues == [] && worker.queueTolerations == []
    && (worker.allowedQueues == {} || worker.allowedQueues == {"q"}) && !worker.invalidated
  }

  lemma SceneQueues(nodes: map<Id, Node>, created: seq<Id>, ready: multiset<Job>, future: multiset<Job>,
                    w: Worker, v: Worker, worker: Worker)
    requires Unrestricted(worker)
    ensures EffectiveAllowed(Scene(nodes, created, ready, future, w, v), worker) == {"q"}
  {
  }

  function Claimed(worker: Worker, n: Id): Worker {
    worker.(allowedQueues := {"q"}, claimedWork := worker.claimedWork + [n])
  }

  function HeldBy(node: Node, w: Id): Node {
    node.(dequeueTimestamp := 0, dequeueWorker := Some(w))
  }

  lemma SceneClaim(nodes: map<Id, Node>, created: seq<Id>, ready: multiset<Job>, future: multiset<Job>,
                   w: Worker, v: Worker, job: Job)
    requires Unrestricted(w) && Unrestricted(v) && job.node in nodes && Least(ready, job)
    ensures var b := Scene(nodes, created, ready, future, w, v);
      var rest := ready - multiset{job};
      && LeastJob(b, "w", "q", job) && LeastJob(b, "v", "q", job)
      && Claim(b, "w", "q", job, 0)
         == Scene(nodes[job.node := HeldBy(nodes[job.node], "w")], created, rest, future, Claimed(w, job.node), v)
      && Claim(b, "v", "q", job, 0)
         == Scene(nodes[job.node := HeldBy(nodes[job.node], "v")], created, rest, future, w, Claimed(v, job.node))
  {
    var b := Scene(nodes, created, ready, future, w, v);
    SceneQueues(nodes, created, ready, future, w, v, w);
    SceneQueues(nodes, created, ready, future, w, v, v);
    hide EffectiveAllowed;
    var rest := ready - multiset{job};
    assert "w" != "v" by { assert "w"[0] != "v"[0]; }
    var c := Claim(b, "w", "q", job, 0);
    assert c.workers == map["w" := Claimed(w, job.node), "v" := v];
    assert c.queues == map["q" := Queue("", rest)];
    var d := Claim(b, "v", "q", job, 0);
    assert d.workers == map["w" := w, "v" := Claimed(v, job.node)];
    assert d.queues == map["q" := Queue("", rest)];
  }

  ghost predicate InOrders(nodes: map<Id, Node>) {
    forall n | n in nodes :: nodes[n].decl.instance in ORDERS
  }

  lemma SceneEnqueue(nodes: map<Id, Node>, created: seq<Id>, ready: multiset<Job>, future: multiset<Job>,
                     w: Worker, v: Worker, n: Id, now: int)
    requires InOrders(nodes) && n in nodes && nodes[n].nextRetry == -1 && nodes[n].decl.queueName == "q"
    ensures var b := Scene(nodes, created, ready, future, w, v);
      && AllKnown(b)
      && EnqueueNode(b, n, now)
         == Scene(nodes, created, ready + multiset{Job(n, ORDERS[nodes[n].decl.instance])}, future, w, v)
  {
    var b := Scene(nodes, created, ready, future, w, v);
    var c := EnqueueNode(b, n, now);
    assert c.nodes == nodes;
    assert c.queues == map["q" := Queue("", ready + multiset{Job(n, ORDERS[nodes[n].decl.instance])})];
  }

  function FirstScene(): State {
    Scene(map["a" := Fresh(FIRST, 0, [], None)], ["a"], multiset{Job("a", 0)}, multiset{}, IDLE, IDLE)
  }

  function Bare(): State {
    Hired().(nodes := map["a" := Fresh(FIRST, 0, [], None)], created := ["a"])
  }

  lemma InsertFirst()
    ensures MayInsert(Hired(), "a", FIRST) && InsertNode(Hired(), "a", FIRST, None) == Bare()
  {
  }

  /** The very first enqueued node brings its queue. */
  lemma EnqueueFirst()
    ensures AllKnown(Bare()) && SourcesDone(Bare(), "a") && EnqueueNode(Bare(), "a", 0) == FirstScene()
  {
    var b := Bare();
    var c := EnqueueNode(b, "a", 0);
    assert c.workers == b.workers;
    assert c.nodes == b.nodes;
    var none: multiset<Job> := multiset{};
    assert none + multiset{Job("a", 0)} == multiset{Job("a", 0)};
    assert c.queues == map["q" := Queue("", multiset{Job("a", 0)})];
  }

  lemma CreateFirst()
    ensures MayInsert(Hired(), "a", FIRST) && NewNode(Hired(), "a", FIRST, None, 0) == FirstScene()
  {
    hide InsertNode, EnqueueNode, FirstScene;
    InsertFirst();
    EnqueueFirst();
  }

  function LaterScene(): State {
    Scene(map["a" := Fresh(FIRST, 0, [], None), "c" := Fresh(LATER, 1, [], None)], ["a", "c"],
          multiset{Job("a", 0), Job("c", 1)}, multiset{}, IDLE, IDLE)
  }

  lemma CreateLater()
    ensures MayInsert(FirstScene(), "c", LATER) && NewNode(FirstScene(), "c", LATER, None, 0) == LaterScene()
  {
    var nodes := LaterScene().nodes;
    var b := InsertNode(FirstScene(), "c", LATER, None);
    assert b.nodes == nodes && b.created == ["a", "c"];
    SceneEnqueue(nodes, ["a", "c"], multiset{Job("a", 0)}, multiset{}, IDLE, IDLE, "c", 0);
    assert multiset{Job("a", 0)} + multiset{Job("c", 1)} == multiset{Job("a", 0), Job("c", 1)};
    hide EnqueueNode;
  }

  const RETRY := RetryMessage(5, 1, 0)
  const POLICY := Policy(0, 5, 1, 0)

  function TwiceNodes(): map<Id, Node> {
    map["a" := Fresh(FIRST, 0, ["d", "d"], None), "d" := Fresh(TWICE, 1, [], Some(POLICY))]
  }

  function TwiceScene(): State {
    Scene(TwiceNodes(), ["a", "d"], multiset{Job("a", 0)}, multiset{}, IDLE, IDLE)
  }

  lemma LinkLast(nodes: map<Id, Node>, init: seq<Id>, s: Id, n: Id)
    requires s in nodes && forall x | x in init :: x in nodes
    ensures forall x | x in init + [s] :: x in nodes
    ensures var rest := AddBackLinks(nodes, init, n);
      AddBackLinks(nodes, init + [s], n) == rest[s := rest[s].(destinations := rest[s].destinations + [n])]
  {
    assert (init + [s])[..|init|] == init;
  }

  lemma LinkTwice(nodes: map<Id, Node>, s: Id, n: Id)
    requires s in nodes && nodes[s].destinations == []
    ensures forall x | x in [s, s] :: x in nodes
    ensures AddBackLinks(nodes, [s, s], n) == nodes[s := nodes[s].(destinations := [n, n])]
  {
    var none: seq<Id> := [];
    assert none + [s] == [s] && [s] + [s] == [s, s];
    assert none + [n] == [n] && [n] + [n] == [n, n];
    LinkLast(nodes, none, s, n);
    LinkLast(nodes, [s], s, n);
  }

  lemma TwiceLinked()
    ensures var nodes := FirstScene().nodes["d" := FreshNode(FirstScene(), TWICE, Some(POLICY))];
      "a" in nodes && AddBackLinks(nodes, ["a", "a"], "d") == TwiceNodes()
  {
    hide AddBackLinks;
    var nodes := FirstScene().nodes["d" := FreshNode(FirstScene(), TWICE, Some(POLICY))];
    assert nodes == map["a" := Fresh(FIRST, 0, [], None), "d" := Fresh(TWICE, 1, [], Some(POLICY))];
    LinkTwice(nodes, "a", "d");
  }

  lemma CreateTwice()
    ensures MayInsert(FirstScene(), "d", TWICE) && NewNode(FirstScene(), "d", TWICE, Some(POLICY), 0) == TwiceScene()
  {
    TwiceLinked();
    hide AddBackLinks, EnqueueNode;
    var b := InsertNode(FirstScene(), "d", TWICE, Some(POLICY));
    assert b.created == ["a", "d"];
    assert b == TwiceScene();
    assert "a" in b.nodes["d"].decl.sources && !b.nodes["a"].completed;
  }

  // ---------------------------------------------------------------- events

  lemma InstanceStep(s: System, i: Id)
    requires SoundSystem(s) && !s.stalled && s.clock == 0 && i !in s.b.instances && |s.b.instances| < MAX_INT64
    ensures var e := Event(0, CreateInstance(i));
      Enabled(s, e) && Disciplined(s, e) && Next(s, e) == s.(b := NewInstance(s.b, i))
  {
    hide Sound, Describes;
  }

  lemma WorkerStep(s: System, w: Id)
    requires SoundSystem(s) && !s.stalled && s.clock == 0 && w !in s.b.workers
    ensures var e := Event(0, CreateWorker(w, [], [], []));
      Enabled(s, e) && Disciplined(s, e) && Next(s, e) == s.(b := NewWorker(s.b, w, [], [], [], 0))
  {
    hide Sound, Describes;
  }

  lemma NodeStep(s: System, n: Id, decl: Decl, retry: Option<RetryMessage>)
    requires SoundSystem(s) && !s.stalled && s.clock == 0 && MayInsert(s.b, n, decl) && decl.queueName == "q"
    requires forall x | x in decl.sources :: s.b.nodes[x].decl.instance == decl.instance
    ensures var e := Event(0, CreateNode(n, decl, retry));
      && Enabled(s, e) && (NoDup(decl.sources) ==> Disciplined(s, e))
      && Next(s, e) == s.(b := NewNode(s.b, n, decl, PolicyFor(retry), 0), notBefore := s.notBefore[n := 0])
  {
    hide Sound, Describes, NewNode;
  }

  lemma ClaimStep(s: System, w: Id, q: string, job: Job)
    requires SoundSystem(s) && !s.stalled && s.clock == 0 && w in s.b.workers && !s.b.workers[w].invalidated
    requires LeastJob(s.b, w, q, job)
    ensures var e := Event(0, GetWork(w, q, job));
      && Enabled(s, e) && Disciplined(s, e) && job.node in s.b.nodes && q in s.b.queues
      && Next(s, e).b == Claim(s.b, w, q, job, 0) && !Next(s, e).stalled && Next(s, e).clock == 0
      && Next(s, e).open == s.open + {(w, job.node)} && s.sent <= Next(s, e).sent
      && exists m: NodeMessage :: m.identifier == job.node && (w, m) in Next(s, e).sent
  {
    hide Sound, Describes, Claim, LeastJob, NodeToMessage;
    LeastJobIsQueued(s.b, w, q, job);
    QueuedJobIsDue(s.b, q, job);
    ClaimKeepsSound(s.b, w, q, job, 0);
    var c := Claim(s.b, w, q, job, 0);
    SoundBasics(c);
    ClaimKeys(s.b, w, q, job);
    MessageIdentifier(c, job.node);
    var m := NodeToMessage(c, job.node);
    assert (w, m) in Next(s, Event(0, GetWork(w, q, job))).sent;
  }

  lemma ClaimKeys(b: State, w: Id, q: string, job: Job)
    requires w in b.workers && q in b.queues && job.node in b.nodes
    ensures job.node in Claim(b, w, q, job, 0).nodes
  {
  }

  lemma MessageIdentifier(b: State, n: Id)
    requires SourcesKnown(b) && n in b.nodes
    ensures NodeToMessage(b, n).identifier == n
  {
  }

  // ---------------------------------------------------------------- two instances, two workers, one node

  ghost predicate At0(s: System, b: State) {
    s.b == b && s.clock == 0 && !s.stalled
  }

  lemma Opening() returns (es: seq<Event>, s: System)
    ensures Leads(es, s) && OnceSystem(s) && SoundSystem(s) && At0(s, Hired())
  {
    hide OnceSystem, SoundSystem, Enabled, Disciplined, Next, Leads, NewInstance, NewWorker, Hired, EMPTY;
    EmptyHistory();
    var one, two := NewInstance(EMPTY, "i"), NewInstance(NewInstance(EMPTY, "i"), "j");
    HiredIs();
    HiredFacts();
    es, s := [], START;
    InstanceStep(s, "i");
    es, s := Further(es, s, Event(0, CreateInstance("i")));
    InstanceStep(s, "j");
    es, s := Further(es, s, Event(0, CreateInstance("j")));
    WorkerStep(s, "w");
    es, s := Further(es, s, Event(0, CreateWorker("w", [], [], [])));
    WorkerStep(s, "v");
    es, s := Further(es, s, Event(0, CreateWorker("v", [], [], [])));
  }

  lemma Further(es: seq<Event>, s: System, e: Event) returns (fs: seq<Event>, t: System)
    requires SoundSystem(s) && OnceSystem(s) && Leads(es, s) && Enabled(s, e) && Disciplined(s, e)
    ensures fs == es + [e] && t == Next(s, e) && SoundSystem(t) && OnceSystem(t) && Leads(fs, t)
  {
    hide OnceSystem, SoundSystem, Enabled, Disciplined, Next, Leads;
    LeadsFurther(es, s, e);
    fs, t := es + [e], Next(s, e);
    OnceFacts(t);
  }

  lemma HiredFacts()
    ensures "i" !in EMPTY.instances && |EMPTY.instances| < MAX_INT64
    ensures "j" !in NewInstance(EMPTY, "i").instances && |NewInstance(EMPTY, "i").instances| < MAX_INT64
    ensures var b := NewInstance(NewInstance(EMPTY, "i"), "j");
      "w" !in b.workers && "v" !in NewWorker(b, "w", [], [], [], 0).workers
  {
    assert NewInstance(EMPTY, "i").instances == map["i" := 0];
    assert |map["i" := 0]| == 1;
    assert "w" != "v" by { assert "w"[0] != "v"[0]; }
    assert "i" != "j" by { assert "i"[0] != "j"[0]; }
  }

  lemma Start() returns (es: seq<Event>, s: System)
    ensures Leads(es, s) && OnceSystem(s) && SoundSystem(s) && At0(s, FirstScene())
  {
    hide OnceSystem, SoundSystem, Enabled, Disciplined, Next, Leads, NewNode, Hired, FirstScene, MayInsert;
    es, s := Opening();
    CreateFirst();
    NodeStep(s, "a", FIRST, None);
    es, s := Further(es, s, Event(0, CreateNode("a", FIRST, None)));
  }

  // ---------------------------------------------------------------- the later instance is answered first

  function BothHeld(): State {
    Scene(map["a" := HeldBy(Fresh(FIRST, 0, [], None), "w"), "c" := HeldBy(Fresh(LATER, 1, [], None), "v")],
          ["a", "c"], multiset{}, multiset{}, Claimed(IDLE, "a"), Claimed(IDLE, "c"))
  }

  function FirstHeld(): State {
    Scene(map["a" := HeldBy(Fresh(FIRST, 0, [], None), "w"), "c" := Fresh(LATER, 1, [], None)], ["a", "c"],
          multiset{Job("c", 1)}, multiset{}, Claimed(IDLE, "a"), IDLE)
  }

  ghost predicate Free(b: State, w: Id) {
    w in b.workers && !b.workers[w].invalidated
  }

  lemma ClaimFirst()
    ensures Free(LaterScene(), "w") && LeastJob(LaterScene(), "w", "q", Job("a", 0))
    ensures Claim(LaterScene(), "w", "q", Job("a", 0), 0) == FirstHeld()
  {
    hide Claim, LeastJob;
    var nodes := LaterScene().nodes;
    var ready := multiset{Job("a", 0), Job("c", 1)};
    SceneClaim(nodes, ["a", "c"], ready, multiset{}, IDLE, IDLE, Job("a", 0));
    assert ready - multiset{Job("a", 0)} == multiset{Job("c", 1)};
    assert nodes["a" := HeldBy(nodes["a"], "w")] == FirstHeld().nodes;
  }

  lemma ClaimSecond()
    ensures Free(FirstHeld(), "v") && LeastJob(FirstHeld(), "v", "q", Job("c", 1))
    ensures Claim(FirstHeld(), "v", "q", Job("c", 1), 0) == BothHeld()
  {
    hide Claim, LeastJob;
    var nodes := FirstHeld().nodes;
    SceneClaim(nodes, ["a", "c"], multiset{Job("c", 1)}, multiset{}, Claimed(IDLE, "a"), IDLE, Job("c", 1));
    var none: multiset<Job> := multiset{};
    assert multiset{Job("c", 1)} - multiset{Job("c", 1)} == none;
    assert nodes["c" := HeldBy(nodes["c"], "v")] == BothHeld().nodes;
  }

  /** Worker w holds a of the first instance, worker v holds c of the second, and v answers. */
  lemma LaterAnsweredFirst(value: Obj) returns (es: seq<Event>, s: System, m: NodeMessage)
    ensures Leads(es, s) && OnceSystem(s) && SoundSystem(s) && At0(s, BothHeld()) && m.identifier == "c"
    ensures Enabled(s, Event(0, SubmitWork("v", m, value))) && Disciplined(s, Event(0, SubmitWork("v", m, value)))
  {
    hide OnceSystem, SoundSystem, Enabled, Disciplined, Next, Leads, NewNode, FirstScene, LaterScene, BothHeld,
         MayInsert, LeastJob, Claim, FirstHeld;
    es, s := Start();
    CreateLater();
    NodeStep(s, "c", LATER, None);
    es, s := Further(es, s, Event(0, CreateNode("c", LATER, None)));
    ClaimFirst();
    ClaimStep(s, "w", "q", Job("a", 0));
    es, s := Further(es, s, Event(0, GetWork("w", "q", Job("a", 0))));
    ClaimSecond();
    ClaimStep(s, "v", "q", Job("c", 1));
    var e := Event(0, GetWork("v", "q", Job("c", 1)));
    m :| m.identifier == "c" && ("v", m) in Next(s, e).sent;
    es, s := Further(es, s, e);
    assert Free(BothHeld(), "v") by { BothFree(); }
    AnswerStep(s, "v", m, value);
  }

  lemma BothFree()
    ensures Free(BothHeld(), "v")
  {
  }

  lemma AnswerMay(s: System, w: Id, m: NodeMessage, value: Obj)
    requires SoundSystem(s) && !s.stalled && s.clock == 0 && Free(s.b, w) && (w, m) in s.sent
    ensures Enabled(s, Event(0, SubmitWork(w, m, value)))
    ensures AllKnown(s.b) && DestinationsKnown(s.b) && Describes(s.b, m)
  {
    hide Describes, ExecutionDidResolve;
    SystemFacts(s);
    SoundBasics(s.b);
    hide Sound, AllKnown;
  }

  lemma AnswerStep(s: System, w: Id, m: NodeMessage, value: Obj)
    requires SoundSystem(s) && !s.stalled && s.clock == 0 && Free(s.b, w) && (w, m) in s.sent
    ensures var e := Event(0, SubmitWork(w, m, value));
      && Enabled(s, e) && ((w, m.identifier) in s.open ==> Disciplined(s, e))
      && AllKnown(s.b) && DestinationsKnown(s.b) && m.identifier in s.b.nodes
      && Next(s, e).b == ExecutionDidResolve(s.b, m.identifier, value, 0)
      && !Next(s, e).stalled && Next(s, e).clock == 0 && Next(s, e).sent == s.sent
  {
    hide SoundSystem, Enabled, ExecutionDidResolve, Sound, AllKnown, DestinationsKnown;
    AnswerMay(s, w, m, value);
    hide SourcesDone;
  }
}
