/**
 * Runs cannot go on forever: a measure over nodes falls with every claim, answer and drained job, and only creating
 * nodes and reclaiming work from dead workers raise it.
 */
module Progress {
  import opened Basics
  import opened Retry
  import opened Inspection
  import opened Model
  import opened Safety
  import opened SafetyOfSteps
  import opened Placement
  import opened Once
  import opened OnceSteps
  import opened OnceTicks
  import opened Runs
  import opened Discipline
  import opened Leases

  // ---------------------------------------------------------------- the measure

  /** Retries left times three, plus the distance of the present stage from being done. */
  ghost function Weight(node: Node): nat {
    if node.completed || Exhausted(node) then 0
    else
      3 * (Budget(node.policy) - |node.failures|)
      + if node.dequeueWorker.Some? then 1 else if node.nextRetry > -1 then 3 else 2
  }

  ghost function Sum(nodes: map<Id, Node>, ids: seq<Id>): nat
    requires forall n | n in ids :: n in nodes
  {
    if ids == [] then 0 else Sum(nodes, ids[..|ids| - 1]) + Weight(nodes[ids[|ids| - 1]])
  }

  ghost predicate Listed(b: State) {
    NoDup(b.created) && forall n :: n in b.created <==> n in b.nodes
  }

  lemma RankedIsListed(b: State)
    requires Ranked(b)
    ensures Listed(b)
  {
  }

  ghost function Measure(b: State): nat
    requires Listed(b)
  {
    Sum(b.nodes, b.created)
  }

  lemma {:induction false} SumSame(v: map<Id, Node>, w: map<Id, Node>, ids: seq<Id>)
    requires forall n | n in ids :: n in v && n in w && Weight(w[n]) == Weight(v[n])
    ensures Sum(w, ids) == Sum(v, ids)
  {
    if ids != [] {
      SumSame(v, w, ids[..|ids| - 1]);
      hide Weight;
    }
  }

  /** Changing one node changes the sum by the change of its weight. */
  lemma {:induction false} SumUpdate(v: map<Id, Node>, ids: seq<Id>, n: Id, node: Node)
    requires NoDup(ids) && n in v && forall m | m in ids :: m in v
    ensures Sum(v[n := node], ids) + (if n in ids then Weight(v[n]) else 0)
         == Sum(v, ids) + (if n in ids then Weight(node) else 0)
  {
    hide Weight;
    if ids != [] {
      var init, last := ids[..|ids| - 1], ids[|ids| - 1];
      assert ids == init + [last];
      if last == n {
        assert n !in init;
        SumUpdateAbsent(v, init, n, node);
      } else {
        SumUpdate(v, init, n, node);
      }
    }
  }

  lemma {:induction false} SumUpdateAbsent(v: map<Id, Node>, ids: seq<Id>, n: Id, node: Node)
    requires n !in ids && forall m | m in ids :: m in v
    ensures Sum(v[n := node], ids) == Sum(v, ids)
  {
    hide Weight;
    if ids != [] {
      SumUpdateAbsent(v, ids[..|ids| - 1], n, node);
    }
  }

  lemma MeasureUpdate(b: State, c: State, n: Id, node: Node)
    requires Listed(b) && n in b.nodes && c.nodes == b.nodes[n := node] && c.created == b.created
    ensures Listed(c) && Measure(c) + Weight(b.nodes[n]) == Measure(b) + Weight(node)
  {
    hide Weight;
    SumUpdate(b.nodes, b.created, n, node);
  }

  // ---------------------------------------------------------------- creation

  lemma InsertWeights(b: State, n: Id, decl: Decl, policy: Option<Policy>)
    requires MayInsert(b, n, decl)
    ensures var c := InsertNode(b, n, decl, policy);
      && c.created == b.created + [n] && Weight(c.nodes[n]) == 2 + 3 * Budget(policy)
      && forall m | m in b.nodes :: Weight(c.nodes[m]) == Weight(b.nodes[m])
  {
  }

  lemma InsertMeasure(b: State, n: Id, decl: Decl, policy: Option<Policy>)
    requires MayInsert(b, n, decl) && Listed(b)
    ensures var c := InsertNode(b, n, decl, policy);
      Listed(c) && Measure(c) == Measure(b) + 2 + 3 * Budget(policy)
  {
    hide InsertNode, Weight;
    InsertWeights(b, n, decl, policy);
    var c := InsertNode(b, n, decl, policy);
    assert c.created[..|c.created| - 1] == b.created;
    SumSame(b.nodes, c.nodes, b.created);
  }

  lemma NewNodeMeasure(b: State, n: Id, decl: Decl, policy: Option<Policy>, now: int)
    requires MayInsert(b, n, decl) && Listed(b)
    ensures var c := NewNode(b, n, decl, policy, now);
      Listed(c) && Measure(c) <= Measure(b) + 2 + 3 * Budget(policy)
  {
    InsertMeasure(b, n, decl, policy);
    InsertKeepsOthers(b, n, decl, policy);
    var c := InsertNode(b, n, decl, policy);
    assert c.nodes[n].nextRetry == -1;
    hide InsertNode, Weight, Listed, SourcesDone;
    if SourcesDone(c, n) {
      ReadyEffect(c, n, now);
      hide EnqueueNode, SameWorkers;
      MeasureUpdate(c, EnqueueNode(c, n, now), n, c.nodes[n]);
    }
  }

  // ---------------------------------------------------------------- claiming, answering

  lemma ClaimMeasure(b: State, w: Id, q: string, job: Job, now: int)
    requires AllKnown(b) && JobsFit(b) && OnceEach(b) && Listed(b)
    requires w in b.workers && q in b.queues && job in b.queues[q].jobs
    ensures job.node in b.nodes
    ensures var c := Claim(b, w, q, job, now); Listed(c) && Measure(c) + 1 == Measure(b)
  {
    hide JobsFit, Listed, Leased, Budgeted, Distinct, Claim, Weight, FutureFits, Placed;
    QueuedIsReady(b, q, job);
    ReadyFacts(b, job.node);
    ClaimNodes(b, w, q, job, now);
    var node := b.nodes[job.node];
    ClaimedWeight(node, w, Unix(now));
    MeasureUpdate(b, Claim(b, w, q, job, now), job.node,
        node.(dequeueTimestamp := Unix(now), dequeueWorker := Some(w)));
  }

  lemma ClaimedWeight(node: Node, w: Id, t: int)
    requires !node.completed && !Exhausted(node) && node.dequeueWorker.None? && node.nextRetry == -1
    ensures Weight(node.(dequeueTimestamp := t, dequeueWorker := Some(w))) + 1 == Weight(node)
  {
  }

  lemma ResolveMeasure(b: State, w: Id, n: Id, value: Obj, now: int)
    requires Graph(b) && OnceEach(b) && Listed(b) && Holds(b, w, n)
    ensures var c := ExecutionDidResolve(b, n, value, now); Listed(c) && Measure(c) + 1 <= Measure(b)
  {
    hide Placed, FutureFits, Leased, Budgeted, Distinct, SourcesDone, NotifyAll, Listed, Weight;
    HeldFacts(b, n);
    SettledShape(b, w, n, value);
    SettledKeeps(b, w, n, value);
    DestinationsArePrompt(b, w, n, value);
    NotifyEffect(Settled(b, n, value), b.nodes[n].destinations, now);
    var node := Unclaim(b.nodes[n].(resolvedValue := value, completed := true));
    HeldWeight(b.nodes[n], node);
    MeasureUpdate(b, ExecutionDidResolve(b, n, value, now), n, node);
  }

  lemma HeldWeight(node: Node, done: Node)
    requires !node.completed && !Exhausted(node) && node.dequeueWorker.Some? && done.completed
    ensures Weight(node) >= 1 && Weight(done) == 0
  {
  }

  lemma FailMeasure(b: State, w: Id, n: Id, traceback: string, jitter: real, now: int)
    requires AllKnown(b) && OnceEach(b) && Listed(b) && Holds(b, w, n) && Jitter(jitter) && now >= 0
    ensures var c := ExecutionDidFail(b, n, traceback, jitter, now); Listed(c) && Measure(c) + 1 <= Measure(b)
  {
    assert WithinBudget(b.nodes[n]);
    hide Placed, FutureFits, Leased, Budgeted, Distinct, SourcesDone, Listed, Weight, ExecutionDidFail, WithinBudget,
      FailedNode, Retries, Exhausted;
    HeldFacts(b, n);
    FailIs(b, w, n, traceback, jitter, now);
    var f := FailedNode(b.nodes[n], traceback, jitter, now);
    FailedWeight(b.nodes[n], traceback, jitter, now);
    MeasureUpdate(b, ExecutionDidFail(b, n, traceback, jitter, now), n, f);
  }

  lemma FailedWeight(node: Node, traceback: string, jitter: real, now: int)
    requires WithinBudget(node) && !node.completed && !Exhausted(node) && node.dequeueWorker.Some?
    requires Jitter(jitter) && now >= 0
    ensures Weight(FailedNode(node, traceback, jitter, now)) + 1 <= Weight(node)
  {
  }

  // ---------------------------------------------------------------- the two ticks

  lemma UnclaimWeight(node: Node)
    ensures Weight(Unclaim(node)) <= Weight(node) + 1 || node.nextRetry > -1
  {
  }

  lemma {:induction false} ReclaimMeasure(b: State, ns: seq<Id>, now: int)
    requires AllKnown(b) && Listed(b) && Reclaimable(b, ns)
    ensures var c := ReclaimAll(b, ns, now); Listed(c) && Measure(c) <= Measure(b) + |ns|
  {
    hide Weight, Listed, AllKnown;
    if ns != [] {
      var init, n := ns[..|ns| - 1], ns[|ns| - 1];
      assert ns == init + [n];
      ReclaimMeasure(b, init, now);
      ReclaimEffect(b, init, now);
      var c := ReclaimAll(b, init, now);
      ReclaimOneEffect(c, n, now);
      hide Reclaim, SameWorkers;
      UnclaimWeight(c.nodes[n]);
      MeasureUpdate(c, Reclaim(c, n, now), n, Unclaim(c.nodes[n]));
    }
  }

  /** How many claims one worker's collection returns. */
  ghost function Reclaims(b: State, w: Id, now: int): nat {
    if w in b.workers && Stale(b.workers[w], now) then |b.workers[w].claimedWork| else 0
  }

  ghost function ReclaimsAll(b: State, ws: seq<Id>, now: int): nat
    requires AllKnown(b) && ClaimsKnown(b)
  {
    if ws == [] then 0
    else ReclaimsAll(b, ws[..|ws| - 1], now) + Reclaims(CollectAll(b, ws[..|ws| - 1], now), ws[|ws| - 1], now)
  }

  lemma CollectMeasure(b: State, w: Id, now: int)
    requires AllKnown(b) && ClaimsKnown(b) && OnceEach(b) && Listed(b)
    ensures var c := CollectWorker(b, w, now); Listed(c) && Measure(c) <= Measure(b) + Reclaims(b, w, now)
  {
    if w in b.workers && Stale(b.workers[w], now) {
      hide Placed, FutureFits, Leased, Budgeted, Distinct, ReclaimAll, Weight, Listed;
      ClaimsAreReclaimable(b, w);
      var ns := b.workers[w].claimedWork;
      ReclaimMeasure(b, ns, now);
      ReclaimAllKeepsWorkers(b, ns, now);
      hide AllKnown, ClaimsKnown, SameWorkers;
      var c := ReclaimAll(b, ns, now);
      SameMeasure(c, CollectWorker(b, w, now));
    } else {
      hide OnceEach, Listed;
    }
  }

  lemma SameMeasure(b: State, c: State)
    requires Listed(b) && c.nodes == b.nodes && c.created == b.created
    ensures Listed(c) && Measure(c) == Measure(b)
  {
  }

  lemma {:induction false} CollectAllMeasure(b: State, ws: seq<Id>, now: int)
    requires AllKnown(b) && ClaimsKnown(b) && OnceEach(b) && Listed(b)
    ensures var c := CollectAll(b, ws, now); Listed(c) && Measure(c) <= Measure(b) + ReclaimsAll(b, ws, now)
  {
    hide OnceEach, ClaimsKnown, CollectWorker, Listed, Measure, Reclaims;
    if ws != [] {
      var init, w := ws[..|ws| - 1], ws[|ws| - 1];
      CollectAllMeasure(b, init, now);
      CollectAllKeepsOnce(b, init, now);
      CollectMeasure(CollectAll(b, init, now), w, now);
    }
  }

  lemma DrainOneMeasure(b: State, job: Job, now: int)
    requires AllKnown(b) && OnceEach(b) && Listed(b) && job in b.future && job.priority <= now
    ensures job.node in b.nodes
    ensures var c := DrainOne(b, job, now); Listed(c) && Measure(c) + 1 == Measure(b)
  {
    DrainNeverReenters(b, job, now);
    hide Leased, Budgeted, Distinct, Listed, Weight, DrainOne, MustWait, Placed;
    DelayedFacts(b, job);
    DrainOneIs(b, job, now);
    hide FutureFits, SameWorkers, AllKnown;
    DrainedWeight(b.nodes[job.node]);
    MeasureUpdate(b, DrainOne(b, job, now), job.node, b.nodes[job.node].(nextRetry := -1));
  }

  lemma DrainedWeight(node: Node)
    requires !node.completed && !Exhausted(node) && node.dequeueWorker.None? && node.nextRetry > -1
    ensures Weight(node.(nextRetry := -1)) + 1 == Weight(node)
  {
  }

  lemma {:induction false} DrainAllMeasure(b: State, jobs: seq<Job>, now: int)
    requires AllKnown(b) && OnceEach(b) && Listed(b) && forall j | j in jobs :: j.node in b.nodes
    requires DrainRounds(b, jobs, now)
    ensures var c := DrainAll(b, jobs, now); Listed(c) && Measure(c) + |jobs| == Measure(b)
  {
    hide OnceEach, DrainOne, Listed, Measure, MustWait;
    if jobs != [] {
      var init, job := jobs[..|jobs| - 1], jobs[|jobs| - 1];
      DrainAllMeasure(b, init, now);
      DrainAllKeepsOnce(b, init, now);
      DrainOneMeasure(DrainAll(b, init, now), job, now);
    }
  }

  // ---------------------------------------------------------------- events and runs

  /** Productive work of an event: claims, accepted answers and drained jobs. */
  ghost function Work(s: System, e: Event): nat {
    match e.action
    case GetWork(_, _, _) => 1
    case SubmitWork(w, _, _) => if w in s.b.workers && !s.b.workers[w].invalidated then 1 else 0
    case SubmitFailure(w, _, _, _) => if w in s.b.workers && !s.b.workers[w].invalidated then 1 else 0
    case QueueFuture(jobs) => |jobs|
    case _ => 0
  }

  /** What an event may add to the measure: new nodes with their retries, and reclaimed work. */
  ghost function Gain(s: System, e: Event): nat
    requires AllKnown(s.b) && ClaimsKnown(s.b)
  {
    match e.action
    case CreateNode(_, _, retry) => 2 + 3 * Budget(PolicyFor(retry))
    case CollectWorkers(order) => ReclaimsAll(s.b, order, e.now)
    case _ => 0
  }

  ghost predicate Pays(s: System, e: Event)
    requires SoundSystem(s) && Enabled(s, e) && AllKnown(s.b) && ClaimsKnown(s.b) && Listed(s.b)
  {
    Listed(After(s, e)) && Measure(After(s, e)) + Work(s, e) <= Measure(s.b) + Gain(s, e)
  }

  lemma ListedFact(s: System)
    requires OnceSystem(s)
    ensures SoundSystem(s) && AllKnown(s.b) && ClaimsKnown(s.b) && Listed(s.b)
  {
    OnceFacts(s);
    hide OnceSystem, SoundSystem, OnceEach, JobsFit, Acyclic, BackLinked, DestinationsKnown;
    RankedIsListed(s.b);
  }

  lemma CreateNodePays(s: System, e: Event)
    requires OnceSystem(s) && Enabled(s, e) && e.action.CreateNode?
    ensures SoundSystem(s) && AllKnown(s.b) && ClaimsKnown(s.b) && Listed(s.b) && Pays(s, e)
  {
    hide OnceSystem, SoundSystem, Sound, NewNode, Listed, Measure;
    ListedFact(s);
    NewNodeMeasure(s.b, e.action.node, e.action.decl, PolicyFor(e.action.retry), e.now);
  }

  lemma GetWorkPays(s: System, e: Event)
    requires OnceSystem(s) && Enabled(s, e) && e.action.GetWork?
    ensures SoundSystem(s) && AllKnown(s.b) && ClaimsKnown(s.b) && Listed(s.b) && Pays(s, e)
  {
    hide OnceSystem, SoundSystem, Sound, OnceEach, JobsFit, Claim, Listed, Measure, LeastJob, Graph;
    ListedFact(s);
    OnceFacts(s);
    var a := e.action;
    LeastJobIsQueued(s.b, a.worker, a.queue, a.job);
    ClaimMeasure(s.b, a.worker, a.queue, a.job, e.now);
  }

  lemma AnswerPays(s: System, e: Event)
    requires OnceSystem(s) && Enabled(s, e) && Disciplined(s, e)
    requires e.action.SubmitWork? || e.action.SubmitFailure?
    ensures SoundSystem(s) && AllKnown(s.b) && ClaimsKnown(s.b) && Listed(s.b) && Pays(s, e)
  {
    ListedFact(s);
    OnceFacts(s);
    SoundBasics(s.b);
    var w, n := e.action.worker, e.action.message.identifier;
    AnswerIsHeld(s, w, n);
    hide OnceSystem, SoundSystem, Sound, OnceEach, JobsFit, Listed, Measure, Graph, ExecutionDidFail,
         ExecutionDidResolve;
    EnabledFacts(s, e);
    if !s.b.workers[w].invalidated {
      if e.action.SubmitWork? {
        ResolveMeasure(s.b, w, n, e.action.value, e.now);
      } else {
        FailMeasure(s.b, w, n, e.action.traceback, e.action.jitter, e.now);
      }
    }
  }

  lemma TickPays(s: System, e: Event)
    requires OnceSystem(s) && Enabled(s, e)
    requires e.action.CollectWorkers? || e.action.QueueFuture?
    ensures SoundSystem(s) && AllKnown(s.b) && ClaimsKnown(s.b) && Listed(s.b) && Pays(s, e)
  {
    hide OnceSystem, SoundSystem, Sound, OnceEach, JobsFit, Listed, Measure, Graph, CollectAll, DrainAll, DrainRounds,
      NothingDue, ReclaimsAll, AllKnown, ClaimsKnown;
    ListedFact(s);
    OnceFacts(s);
    if e.action.CollectWorkers? {
      CollectAllMeasure(s.b, e.action.order, e.now);
    } else {
      DrainAllMeasure(s.b, e.action.jobs, e.now);
    }
  }

  lemma PlainPays(s: System, e: Event)
    requires OnceSystem(s) && Enabled(s, e)
    requires e.action.CreateWorker? || e.action.CreateInstance? || e.action.Ping? || e.action.GetNothing?
    ensures SoundSystem(s) && AllKnown(s.b) && ClaimsKnown(s.b) && Listed(s.b) && Pays(s, e)
  {
    hide OnceSystem, SoundSystem, Sound, Listed, Measure, NothingFor, EffectiveAllowed;
    ListedFact(s);
    SameMeasure(s.b, After(s, e));
  }

  lemma EventPays(s: System, e: Event)
    requires OnceSystem(s) && Enabled(s, e) && Disciplined(s, e)
    ensures SoundSystem(s) && AllKnown(s.b) && ClaimsKnown(s.b) && Listed(s.b) && Pays(s, e)
  {
    hide OnceSystem, SoundSystem, Enabled, Disciplined, Pays, AllKnown, ClaimsKnown, Listed;
    ListedFact(s);
    NeverStalls(s, e);
    if e.action.CreateNode? {
      CreateNodePays(s, e);
    } else if e.action.GetWork? {
      GetWorkPays(s, e);
    } else if e.action.SubmitWork? || e.action.SubmitFailure? {
      AnswerPays(s, e);
    } else if e.action.CollectWorkers? || e.action.QueueFuture? {
      TickPays(s, e);
    } else {
      PlainPays(s, e);
    }
  }

  ghost function TotalWork(s: System, es: seq<Event>): nat
    requires OnceSystem(s) && DisciplinedRun(s, es)
    decreases |es|
  {
    if es == [] then 0
    else
      NextKeepsOnce(s, es[0]);
      Work(s, es[0]) + TotalWork(Next(s, es[0]), es[1..])
  }

  ghost function TotalGain(s: System, es: seq<Event>): nat
    requires OnceSystem(s) && DisciplinedRun(s, es)
    decreases |es|
  {
    if es == [] then 0
    else
      ListedFact(s);
      NextKeepsOnce(s, es[0]);
      Gain(s, es[0]) + TotalGain(Next(s, es[0]), es[1..])
  }

  /**
   * Over any disciplined run the claims, accepted answers and drained jobs together are at most the initial measure
   * plus two and three per retry for each node created, plus one per claim taken back from a dead worker.
   */
  lemma {:induction false} WorkIsBounded(s: System, es: seq<Event>)
    requires OnceSystem(s) && DisciplinedRun(s, es)
    ensures Listed(s.b) && TotalWork(s, es) <= Measure(s.b) + TotalGain(s, es)
    decreases |es|
  {
    hide OnceSystem, SoundSystem, Enabled, Disciplined, Next, Listed, Measure, AllKnown, ClaimsKnown, Work, Gain, After;
    ListedFact(s);
    if es != [] {
      NextKeepsOnce(s, es[0]);
      EventPays(s, es[0]);
      NextIsAfter(s, es[0]);
      WorkIsBounded(Next(s, es[0]), es[1..]);
    }
  }
}
