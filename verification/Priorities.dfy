/** Which work a worker gets: cached queue lists never mislead, filters are respected, older instances come first. */
module Priorities {
  import opened Inspection
  import opened Model
  import opened Safety
  import opened Placement
  import opened Runs
  import opened Schedules

  /** The worker may take work from queue q of b, by its include, exclude and toleration lists. */
  ghost predicate MayUse(b: State, worker: Worker, q: string) {
    && q in b.queues
    && (worker.includeQueues == [] || q in worker.includeQueues)
    && q !in worker.excludeQueues
    && (b.queues[q].taint == "" || b.queues[q].taint in worker.queueTolerations)
  }

  /** A coherent cache shows the queues the worker may use now. */
  lemma CoherentIsCurrent(b: State, w: Id)
    requires Coherent(b) && w in b.workers
    ensures forall q :: q in EffectiveAllowed(b, b.workers[w]) <==> MayUse(b, b.workers[w], q)
    ensures FillCache(b, w).workers[w].allowedQueues == Allowed(b, b.workers[w])
    ensures EffectiveAllowed(FillCache(b, w), FillCache(b, w).workers[w]) == EffectiveAllowed(b, b.workers[w])
  {
  }

  /** In every run, with or without its cache, a worker sees exactly the queues its lists allow now. */
  lemma CacheIsCurrent(es: seq<Event>, w: Id)
    requires SoundSystem(START) && Run(START, es) && w in Exec(START, es).b.workers
    ensures var b := Exec(START, es).b;
      && (forall q :: q in EffectiveAllowed(b, b.workers[w]) <==> MayUse(b, b.workers[w], q))
      && FillCache(b, w).workers[w].allowedQueues == Allowed(b, b.workers[w])
  {
    hide Run, Exec, EffectiveAllowed, MayUse, Allowed, FillCache, Coherent, Describes, Named, Graph, JobsFit, Due;
    SystemFacts(Exec(START, es));
    CoherentIsCurrent(Exec(START, es).b, w);
  }

  lemma ReadyIsQueued(b: State, m: Id)
    requires AllKnown(b) && m in b.nodes && ReadyCount(b, m) > 0
    ensures var q := b.nodes[m].decl.queueName; q in b.queues && Job(m, Order(b, m)) in b.queues[q].jobs
  {
  }

  /**
   * The node handed out comes from a queue its worker may use, and no ready node of such a queue belongs to an older
   * instance.
   */
  lemma OldestInstanceFirst(s: System, e: Event, m: Id)
    requires SoundSystem(s) && Enabled(s, e) && e.action.GetWork?
    ensures var b, worker, n := s.b, s.b.workers[e.action.worker], e.action.job.node;
      && AllKnown(b) && n in b.nodes && MayUse(b, worker, b.nodes[n].decl.queueName)
      && (m in b.nodes && ReadyCount(b, m) > 0 && MayUse(b, worker, b.nodes[m].decl.queueName)
          ==> Order(b, n) <= Order(b, m))
  {
    var b, w, q, job := s.b, e.action.worker, e.action.queue, e.action.job;
    SoundBasics(b);
    assert LeastJob(b, w, q, job) && JobsFit(b) && Coherent(b);
    hide Sound, SoundSystem, EffectiveAllowed, MayUse, Coherent, Enabled, AllKnown;
    CoherentIsCurrent(b, w);
    LeastJobIsQueued(b, w, q, job);
    assert b.nodes[job.node].decl.queueName == q && job.priority == Order(b, job.node);
    hide JobsFit;
    if m in b.nodes && ReadyCount(b, m) > 0 && MayUse(b, b.workers[w], b.nodes[m].decl.queueName) {
      ReadyIsQueued(b, m);
    }
    hide ReadyCount;
  }

  /** A worker in good standing is sent away exactly when no node is ready in any queue it may use. */
  lemma SentAwayMeansNothingReady(s: System, w: Id)
    requires SoundSystem(s) && w in s.b.workers
    ensures AllKnown(s.b)
    ensures NothingFor(s.b, w) <==>
      forall m | m in s.b.nodes && MayUse(s.b, s.b.workers[w], s.b.nodes[m].decl.queueName) :: ReadyCount(s.b, m) == 0
  {
    var b := s.b;
    SoundBasics(b);
    assert JobsFit(b) && Coherent(b);
    hide Sound, SoundSystem, EffectiveAllowed, MayUse, Coherent;
    CoherentIsCurrent(b, w);
    if NothingFor(b, w) {
      forall m | m in b.nodes && MayUse(b, b.workers[w], b.nodes[m].decl.queueName)
        ensures ReadyCount(b, m) == 0
      {
        if ReadyCount(b, m) > 0 {
          ReadyIsQueued(b, m);
        }
      }
    }
    if !NothingFor(b, w) {
      var q, j :| q in EffectiveAllowed(b, b.workers[w]) && q in b.queues && j in b.queues[q].jobs;
      assert ReadyCount(b, j.node) > 0;
    }
  }

  // ---------------------------------------------------------------- orders

  /** Instances keep their order, and those created later come after all earlier ones. */
  ghost predicate OrdersGrow(b: State, c: State) {
    && |b.instances| <= |c.instances|
    && (forall i | i in b.instances :: i in c.instances && c.instances[i] == b.instances[i])
    && (forall i | i in c.instances && i !in b.instances :: c.instances[i] >= |b.instances|)
  }

  lemma EventOrders(s: System, e: Event)
    requires SoundSystem(s) && Enabled(s, e)
    ensures OrdersGrow(s.b, Next(s, e).b)
  {
    hide SoundSystem, Sound, Extends, SameResults;
    NextIsAfter(s, e);
    if e.action.CreateInstance? {
      NewInstanceOrders(s.b, e.action.instance);
      hide Next;
    } else {
      AfterKeeps(s, e);
      hide Enabled, After, Next;
    }
  }

  lemma NewInstanceOrders(b: State, i: Id)
    requires i !in b.instances
    ensures OrdersGrow(b, NewInstance(b, i))
  {
  }

  lemma OrdersGrowTransitive(b: State, c: State, d: State)
    requires OrdersGrow(b, c) && OrdersGrow(c, d)
    ensures OrdersGrow(b, d)
  {
  }

  lemma {:induction false} RunOrders(s: System, es: seq<Event>)
    requires SoundSystem(s) && Run(s, es)
    ensures OrdersGrow(s.b, Exec(s, es).b)
    decreases |es|
  {
    if es == [] {
      hide SoundSystem;
    } else {
      hide SoundSystem, Enabled, Next, OrdersGrow;
      EventOrders(s, es[0]);
      NextKeepsSound(s, es[0]);
      RunOrders(Next(s, es[0]), es[1..]);
      OrdersGrowTransitive(s.b, Next(s, es[0]).b, Exec(Next(s, es[0]), es[1..]).b);
    }
  }

  /** FIFO: an instance that exists earlier in a run has, for ever, a smaller order than one created later. */
  lemma EarlierInstanceSmallerOrder(s: System, es: seq<Event>, i: Id, j: Id)
    requires SoundSystem(s) && Run(s, es)
    requires i in s.b.instances && j !in s.b.instances && j in Exec(s, es).b.instances
    ensures i in Exec(s, es).b.instances && Exec(s, es).b.instances[i] < Exec(s, es).b.instances[j]
  {
    RunOrders(s, es);
    assert s.b.instances[i] < |s.b.instances|;
    hide SoundSystem, Run, Exec;
  }
}
