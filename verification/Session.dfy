/**
 * The object program and the runs together: a server whose callers and clock respect what Runs asks of them is, after
 * every call and every tick, in exactly the state of the run of the events so far; and that run is disciplined as long
 * as its callers are. So what is proved of all runs, or of all disciplined runs, holds of the objects.
 */
module Session {
  import opened Basics
  import opened Retry
  import opened Inspection
  import M = Model
  import Effects
  import Safety
  import opened SafetyOfSteps
  import opened Runs
  import opened Discipline
  import opened Schedules
  import opened Histories
  import opened Ledger
  import opened AsRequested
  import B = Broker
  import S = Server
  import Client

  lemma NothingYet()
    ensures Ends([], START) && SoundSystem(START) && START.b == M.EMPTY
  {
    StartIsSound();
    hide SoundSystem;
  }

  lemma RunEnds(events: seq<Event>, system: System)
    requires Ends(events, system)
    ensures SoundSystem(system)
  {
    StartIsSound();
    hide SoundSystem, Run;
  }

  /** What a handler needs to know about the state before it. */
  lemma StateFacts(s: System)
    requires SoundSystem(s)
    ensures Safety.Sound(s.b) && M.AllKnown(s.b)
    ensures M.ClaimsKnown(s.b) && M.DestinationsKnown(s.b) && Effects.BelowSentinel(s.b.queues)
  {
    Safety.SoundBasics(s.b);
    JobsAreOrdinary(s.b);
    hide Safety.Sound;
  }

  lemma JobsAreOrdinary(b: M.State)
    requires Safety.Sound(b) && Named(b)
    ensures Effects.BelowSentinel(b.queues)
  {
    hide Safety.Graph, Safety.Due, Safety.Coherent, Safety.JobsFit, Safety.Ordered, Named;
    assert M.AllKnown(b) by { Safety.SoundBasics(b); }
    forall q, j | q in b.queues && j in b.queues[q].jobs
      ensures j.priority < M.MAX_INT64
    {
      JobIsOrdinary(b, q, j);
    }
    if "" in b.queues && b.queues[""].jobs != multiset{} {
      var j :| j in b.queues[""].jobs;
      JobIsOrdinary(b, "", j);
      assert false;
    }
  }

  lemma JobIsOrdinary(b: M.State, q: string, j: M.Job)
    requires M.AllKnown(b) && Safety.JobsFit(b) && Safety.Ordered(b) && Named(b) && q in b.queues
         && j in b.queues[q].jobs
    ensures q != "" && j.priority < M.MAX_INT64
  {
  }

  lemma AfterSubmitWork(s: System, now: int, w: Id, m: M.NodeMessage, value: Obj)
    requires SoundSystem(s) && Enabled(s, Event(now, Action.SubmitWork(w, m, value)))
    ensures M.AllKnown(s.b) && M.DestinationsKnown(s.b) && w in s.b.workers && m.identifier in s.b.nodes
    ensures After(s, Event(now, Action.SubmitWork(w, m, value))) == M.SubmitWork(s.b, w, m.identifier, value, now)
    ensures s.b.nodes[m.identifier].decl.instance == m.instanceId
  {
  }

  lemma AfterSubmitFailure(s: System, now: int, w: Id, m: M.NodeMessage, traceback: string, jitter: real)
    requires SoundSystem(s) && Enabled(s, Event(now, Action.SubmitFailure(w, m, traceback, jitter)))
    ensures M.AllKnown(s.b) && w in s.b.workers && m.identifier in s.b.nodes
    ensures After(s, Event(now, Action.SubmitFailure(w, m, traceback, jitter)))
         == M.SubmitFailure(s.b, w, m.identifier, traceback, jitter, now)
    ensures s.b.nodes[m.identifier].decl.instance == m.instanceId
  {
  }

  lemma GetWorkEvent(s: System, now: int, w: Id, q: string, job: M.Job)
    requires SoundSystem(s) && s.clock <= now && w in s.b.workers && !s.b.workers[w].invalidated
    requires M.LeastJob(s.b, w, q, job)
    ensures var e := Event(now, Action.GetWork(w, q, job));
      && Enabled(s, e) && Disciplined(s, e) && job.node in s.b.nodes && q in s.b.queues
      && After(s, e) == M.Claim(s.b, w, q, job, now) && job.node in After(s, e).nodes && M.SourcesKnown(After(s, e))
      && (w, M.NodeToMessage(After(s, e), job.node)) in Next(s, e).sent
  {
    hide Safety.Sound, M.NodeToMessage, M.LeastJob;
    LeastJobIsQueued(s.b, w, q, job);
    QueuedJobIsDue(s.b, q, job);
    ClaimKeepsSound(s.b, w, q, job, now);
    var e := Event(now, Action.GetWork(w, q, job));
    assert After(s, e) == M.Claim(s.b, w, q, job, now);
    Safety.SoundBasics(M.Claim(s.b, w, q, job, now));
  }

  lemma GetNothingEvent(s: System, now: int, w: Id)
    requires SoundSystem(s) && s.clock <= now && w in s.b.workers
    requires s.b.workers[w].invalidated || M.NothingFor(s.b, w)
    ensures var e := Event(now, Action.GetNothing(w));
      && Enabled(s, e) && Disciplined(s, e)
      && After(s, e) == if s.b.workers[w].invalidated then s.b else M.FillCache(s.b, w)
  {
  }

  lemma NewWorkerEvent(s: System, now: int, w: Id, exclude: seq<string>, include_: seq<string>,
                       tolerations: seq<string>)
    requires SoundSystem(s) && Enabled(s, Event(now, Action.CreateWorker(w, exclude, include_, tolerations)))
    ensures w !in s.b.workers
    ensures After(s, Event(now, Action.CreateWorker(w, exclude, include_, tolerations)))
         == M.NewWorker(s.b, w, exclude, include_, tolerations, now)
  {
  }

  lemma NewInstanceEvent(s: System, now: int, i: Id)
    requires SoundSystem(s) && Enabled(s, Event(now, Action.CreateInstance(i)))
    ensures i !in s.b.instances && After(s, Event(now, Action.CreateInstance(i))) == M.NewInstance(s.b, i)
  {
  }

  lemma NewNodeEvent(s: System, now: int, m: S.NodeConfiguration)
    requires SoundSystem(s) && Enabled(s, Event(now, Action.CreateNode(m.identifier, S.DeclOf(m), m.retry)))
    ensures S.Creatable(s.b, m) && MayInsert(s.b, m.identifier, S.DeclOf(m))
    ensures After(s, Event(now, Action.CreateNode(m.identifier, S.DeclOf(m), m.retry)))
         == M.NewNode(s.b, m.identifier, S.DeclOf(m), PolicyFor(m.retry), now)
  {
  }

  lemma PingEvent(s: System, now: int, w: Id)
    requires SoundSystem(s) && Enabled(s, Event(now, Action.Ping(w)))
    ensures w in s.b.workers && After(s, Event(now, Action.Ping(w))) == M.Ping(s.b, w, now)
  {
  }

  lemma CollectEvent(s: System, now: int, order: seq<Id>)
    requires SoundSystem(s) && !s.stalled && s.clock <= now && NoDup(order)
         && forall w :: w in order <==> w in s.b.workers
    requires M.AllKnown(s.b) && M.ClaimsKnown(s.b)
    ensures var e := Event(now, Action.CollectWorkers(order));
      Enabled(s, e) && Disciplined(s, e) && After(s, e) == M.CollectAll(s.b, order, now)
  {
  }

  lemma DrainEvent(s: System, now: int, jobs: seq<M.Job>)
    requires SoundSystem(s) && !s.stalled && s.clock <= now && M.AllKnown(s.b)
    requires (forall j | j in jobs :: j.node in s.b.nodes) && M.DrainRounds(s.b, jobs, now)
    requires M.NothingDue(M.DrainAll(s.b, jobs, now), now)
    ensures var e := Event(now, Action.QueueFuture(jobs));
      Enabled(s, e) && Disciplined(s, e) && After(s, e) == M.DrainAll(s.b, jobs, now)
  {
    hide M.DrainAll, M.DrainRounds, M.NothingDue, Safety.Sound;
  }

  lemma StallEvent(s: System, now: int, jobs: seq<M.Job>, job: M.Job)
    requires SoundSystem(s) && !s.stalled && s.clock <= now && M.AllKnown(s.b)
    requires (forall j | j in jobs :: j.node in s.b.nodes) && M.DrainRounds(s.b, jobs, now)
    requires M.Reenters(M.DrainAll(s.b, jobs, now), job, now)
    ensures var e := Event(now, Action.Stall(jobs, job));
      Enabled(s, e) && After(s, e) == M.Undelay(M.DrainAll(s.b, jobs, now), job)
  {
    hide M.DrainAll, M.DrainRounds, M.Reenters, Safety.Sound;
  }

  /** A run that is disciplined and goes on with a disciplined event. */
  lemma StaysLegal(events: seq<Event>, system: System, e: Event)
    requires SoundSystem(system) && Ends(events, system) && Enabled(system, e) && Disciplined(system, e)
         && Legal(events)
    ensures Legal(events + [e])
  {
    hide OnceSystem, SoundSystem, Enabled, Disciplined, Next, Legal, Ends;
    LegalLeads(events, system);
    AtIsOnce(events, |events|);
    LeadsFurther(events, system, e);
  }

  lemma LegalLeads(events: seq<Event>, system: System)
    requires Ends(events, system) && Legal(events)
    ensures Leads(events, system)
  {
    hide OnceSystem, SoundSystem, Run, Exec;
    assert events[..|events|] == events;
  }

  lemma StalledNext(s: System, e: Event)
    requires SoundSystem(s) && Enabled(s, e)
    ensures Next(s, e).stalled == (s.stalled || e.action.Stall?)
  {
    hide SoundSystem, Enabled, After, Safety.Sound;
  }

  /** In a disciplined run no tick stalls. */
  lemma LegalNeverStalls(events: seq<Event>, system: System, e: Event)
    requires SoundSystem(system) && Ends(events, system) && Enabled(system, e) && Legal(events)
    ensures !e.action.Stall?
  {
    hide OnceSystem, SoundSystem, Enabled, Legal, Ends;
    LegalLeads(events, system);
    AtIsOnce(events, |events|);
    NeverStalls(system, e);
  }

  /** The event is the creation of the node that the request asks for, field by field. */
  ghost predicate Asks(m: S.NodeConfiguration, e: Event) {
    && e.action.CreateNode? && e.action.node == m.identifier && e.action.retry == m.retry
    && var decl := e.action.decl;
       && decl.functionName == m.functionName && decl.functionHash == m.functionHash && decl.queueName == m.queueName
       && decl.taintName == m.taintName && decl.arguments == m.arguments && decl.sources == m.sourceIds
       && decl.instance == m.instanceId
  }

  /** Every node was created for some request. */
  ghost predicate AllAsked(requests: seq<S.NodeConfiguration>, events: seq<Event>) {
    forall e | e in events && e.action.CreateNode? :: exists m :: m in requests && Asks(m, e)
  }

  lemma AskedOn(requests: seq<S.NodeConfiguration>, events: seq<Event>, e: Event)
    requires AllAsked(requests, events) && (e.action.CreateNode? ==> exists m :: m in requests && Asks(m, e))
    ensures AllAsked(requests, events + [e])
  {
    hide Asks;
  }

  lemma AskedMore(requests: seq<S.NodeConfiguration>, events: seq<Event>, m: S.NodeConfiguration, now: int)
    requires AllAsked(requests, events)
    ensures AllAsked(requests + [m], events) && m in requests + [m]
    ensures Asks(m, Event(now, Action.CreateNode(m.identifier, S.DeclOf(m), m.retry)))
  {
    hide Asks;
    assert Asks(m, Event(now, Action.CreateNode(m.identifier, S.DeclOf(m), m.retry))) by { DeclAsks(m, now); }
    forall e | e in events && e.action.CreateNode?
      ensures exists k :: k in requests + [m] && Asks(k, e)
    {
      var k :| k in requests && Asks(k, e);
      assert k in requests + [m];
    }
  }

  lemma DeclAsks(m: S.NodeConfiguration, now: int)
    ensures Asks(m, Event(now, Action.CreateNode(m.identifier, S.DeclOf(m), m.retry)))
  {
  }

  lemma RefusedIffFenced(events: seq<Event>, s: System, w: Id)
    requires Ends(events, s) && w in s.b.workers
    ensures s.b.workers[w].invalidated <==> Fenced(events, w)
  {
    hide Ends;
    WorkerRecord(events, s, w);
  }

  lemma OwnRecord(events: seq<Event>, n: Id, node: M.Node)
    requires NodeFollows(events, n, node)
    ensures node.completed == ValueOf(events, n).Some?
    ensures node.resolvedValue == if ValueOf(events, n).Some? then ValueOf(events, n).value else Raw("")
  {
  }

  /** Every request is that of a call of the program. */
  ghost predicate ForProgram(calls: seq<Client.Call>, requests: seq<S.NodeConfiguration>) {
    forall m | m in requests :: exists k :: 0 <= k < |calls| && Client.Requests(calls[k], m)
  }

  lemma AskedIsOfProgram(calls: seq<Client.Call>, requests: seq<S.NodeConfiguration>, events: seq<Event>, e: Event)
    requires ForProgram(calls, requests) && AllAsked(requests, events) && e in events
    ensures Client.OfProgram(calls, e)
  {
    if e.action.CreateNode? {
      var m :| m in requests && Asks(m, e);
      var k :| 0 <= k < |calls| && Client.Requests(calls[k], m);
      assert Client.Queued(calls[k], e.action.decl);
    }
  }

  class Session {
    const server: S.BrokerServer
    ghost var system: System
    ghost var events: seq<Event>
    /** What CreateNode was asked for. */
    ghost var requests: seq<S.NodeConfiguration>

    ghost predicate Valid()
      reads this, server.broker, server.broker.Repr()
    {
      server.broker.Valid() && this !in server.broker.Repr() && Ends(events, system) && system.b == server.broker.state
      && AllAsked(requests, events)
    }

    /** The event may happen next. */
    ghost predicate May(e: Event)
      reads this`system
    {
      SoundSystem(system) && Enabled(system, e)
    }

    /** The run is longer by one event; a disciplined run that goes on with a disciplined event stays disciplined. */
    twostate predicate Took(e: Event)
      reads this
    {
      && old(May(e)) && events == old(events) + [e] && system == Next(old(system), e)
      && (!e.action.CreateNode? ==> requests == old(requests))
      && (old(Legal(events) && Disciplined(system, e)) ==> Legal(events))
    }

    constructor ()
      ensures Valid() && events == [] && system == START && requests == []
    {
      server := new S.BrokerServer();
      system := START;
      events := [];
      requests := [];
      new;
      NothingYet();
    }

    ghost method Record(e: Event)
      requires Ends(events, system) && May(e) && AllAsked(requests, events)
      requires e.action.CreateNode? ==> exists m :: m in requests && Asks(m, e)
      modifies this`events, this`system
      ensures Ends(events, system) && Took(e) && system.b == After(old(system), e) && AllAsked(requests, events)
    {
      hide SoundSystem, Enabled, Disciplined, Next, After, Ends, Legal, Asks, AllAsked;
      NextIsAfter(system, e);
      AskedOn(requests, events, e);
      EndsFurther(events, system, e);
      if Legal(events) && Disciplined(system, e) {
        StaysLegal(events, system, e);
      }
      events := events + [e];
      system := Next(system, e);
    }

    method SubmitWork(w: Id, m: M.NodeMessage, value: Obj, now: int) returns (reply: Result<M.NodeMessage>)
      requires Valid() && May(Event(now, Action.SubmitWork(w, m, value)))
      modifies this, server.broker, server.broker.Repr()
      ensures Valid() && Took(Event(now, Action.SubmitWork(w, m, value)))
      ensures reply.Err? <==> Fenced(old(events), w)
      ensures reply.Ok? ==> MessageSays(events, m.identifier, reply.value)
    {
      hide SoundSystem, Enabled, Disciplined, Legal, Next, After, M.AllKnown, M.SubmitWork, B.Broker.Valid,
           Ends, Safety.Sound, MessageSays, Fenced;
      ghost var e := Event(now, Action.SubmitWork(w, m, value));
      StateFacts(system);
      AfterSubmitWork(system, now, w, m, value);
      RefusedIffFenced(events, system, w);
      reply := server.SubmitWork(w, m.instanceId, m.identifier, value, now);
      Record(e);
      MessageIsAsRequested(events, system, m.identifier);
    }

    method SubmitFailure(w: Id, m: M.NodeMessage, traceback: string, jitter: real, now: int)
      returns (reply: Result<M.NodeMessage>)
      requires Valid() && May(Event(now, Action.SubmitFailure(w, m, traceback, jitter)))
      modifies this, server.broker, server.broker.Repr()
      ensures Valid() && Took(Event(now, Action.SubmitFailure(w, m, traceback, jitter)))
      ensures reply.Err? <==> Fenced(old(events), w)
      ensures reply.Ok? ==> MessageSays(events, m.identifier, reply.value)
    {
      hide SoundSystem, Enabled, Disciplined, Legal, Next, After, M.AllKnown, M.SubmitFailure, B.Broker.Valid,
           Ends, Safety.Sound, MessageSays, Fenced;
      ghost var e := Event(now, Action.SubmitFailure(w, m, traceback, jitter));
      StateFacts(system);
      AfterSubmitFailure(system, now, w, m, traceback, jitter);
      RefusedIffFenced(events, system, w);
      reply := server.SubmitFailure(w, m.instanceId, m.identifier, traceback, jitter, now);
      Record(e);
      MessageIsAsRequested(events, system, m.identifier);
    }

    /** What is recorded is the node that was handed out, or that nothing was. */
    method GetWork(w: Id, now: int) returns (reply: Result<M.NodeMessage>, ghost e: Event)
      requires Valid() && w in server.broker.state.workers && system.clock <= now
      modifies this, server.broker, server.broker.Repr()
      ensures Valid() && Took(e) && e.now == now
      ensures if reply.Ok? then e.action.GetWork? && e.action.worker == w && (w, reply.value) in system.sent
              else e.action == Action.GetNothing(w)
      ensures reply.Ok? ==> MessageSays(events, e.action.job.node, reply.value)
      ensures reply == Err("worker invalidated") <==> Fenced(old(events), w)
    {
      hide SoundSystem, Enabled, Disciplined, Legal, Next, After, M.AllKnown, M.Claim, M.FillCache, M.LeastJob,
           M.NothingFor, B.Broker.Valid, Ends, Safety.Sound, MessageSays, Fenced, Effects.BelowSentinel,
           Effects.SentAway;
      RunEnds(events, system);
      StateFacts(system);
      ghost var before := system;
      ghost var q, job;
      reply, q, job := server.GetWork(w, now);
      if reply.Ok? {
        e := Event(now, Action.GetWork(w, q, job));
        GetWorkEvent(before, now, w, q, job);
      } else {
        e := Event(now, Action.GetNothing(w));
        if !before.b.workers[w].invalidated {
          Effects.OrdinarySentAway(before.b, w);
        }
        GetNothingEvent(before, now, w);
      }
      RefusedIffFenced(events, before, w);
      Record(e);
      if reply.Ok? {
        MessageIsAsRequested(events, system, job.node);
      }
    }

    method CreateWorker(w: Id, excludeQueues: seq<string>, includeQueues: seq<string>, queueTolerations: seq<string>,
                        now: int)
      requires Valid() && May(Event(now, Action.CreateWorker(w, excludeQueues, includeQueues, queueTolerations)))
      modifies this, server.broker, server.broker.Repr()
      ensures Valid() && Took(Event(now, Action.CreateWorker(w, excludeQueues, includeQueues, queueTolerations)))
    {
      hide SoundSystem, Enabled, Disciplined, Legal, Next, After, M.NewWorker, B.Broker.Valid, Ends,
           Safety.Sound;
      StateFacts(system);
      NewWorkerEvent(system, now, w, excludeQueues, includeQueues, queueTolerations);
      server.broker.WorkerKeys();
      var id := server.CreateWorker(w, excludeQueues, includeQueues, queueTolerations, now);
      Record(Event(now, Action.CreateWorker(w, excludeQueues, includeQueues, queueTolerations)));
    }

    method CreateInstance(i: Id, now: int)
      requires Valid() && May(Event(now, Action.CreateInstance(i)))
      modifies this, server.broker, server.broker.Repr()
      ensures Valid() && Took(Event(now, Action.CreateInstance(i)))
    {
      hide SoundSystem, Enabled, Disciplined, Legal, Next, After, M.NewInstance, B.Broker.Valid, Ends,
           Safety.Sound;
      StateFacts(system);
      NewInstanceEvent(system, now, i);
      server.broker.InstanceKeys();
      var id := server.CreateInstance(i);
      Record(Event(now, Action.CreateInstance(i)));
    }

    method CreateNode(m: S.NodeConfiguration, now: int) returns (message: M.NodeMessage)
      requires Valid() && May(Event(now, Action.CreateNode(m.identifier, S.DeclOf(m), m.retry)))
      modifies this, server.broker, server.broker.Repr()
      ensures Valid() && Took(Event(now, Action.CreateNode(m.identifier, S.DeclOf(m), m.retry)))
      ensures requests == old(requests) + [m] && MessageSays(events, m.identifier, message)
      ensures m.identifier in server.broker.nodes && S.Built(server.broker.nodes[m.identifier], m)
    {
      hide SoundSystem, Enabled, Disciplined, Legal, Next, After, M.NewNode, B.Broker.Valid, Ends, Safety.Sound,
           MessageSays, S.Creatable, PolicyFor;
      StateFacts(system);
      NewNodeEvent(system, now, m);
      message := server.CreateNode(m, now);
      AskedMore(requests, events, m, now);
      requests := requests + [m];
      Record(Event(now, Action.CreateNode(m.identifier, S.DeclOf(m), m.retry)));
      MessageIsAsRequested(events, system, m.identifier);
    }

    method Ping(w: Id, now: int) returns (lastPing: int)
      requires Valid() && May(Event(now, Action.Ping(w)))
      modifies this, server.broker, server.broker.Repr()
      ensures Valid() && Took(Event(now, Action.Ping(w))) && lastPing == M.Unix(now)
    {
      hide SoundSystem, Enabled, Disciplined, Legal, Next, After, M.Ping, B.Broker.Valid, Ends,
           Safety.Sound;
      StateFacts(system);
      PingEvent(system, now, w);
      lastPing := server.Ping(w, now);
      Record(Event(now, Action.Ping(w)));
    }

    /** The tick of GarbageCollectWorkers. */
    method CollectWorkers(now: int) returns (ghost e: Event)
      requires Valid() && !system.stalled && system.clock <= now
      modifies this, server.broker, server.broker.Repr()
      ensures Valid() && Took(e) && e.now == now && e.action.CollectWorkers?
    {
      hide SoundSystem, Enabled, Disciplined, Legal, Next, After, M.CollectAll, B.Broker.Valid, Ends,
           Safety.Sound, NoDup;
      RunEnds(events, system);
      StateFacts(system);
      ghost var before := system;
      ghost var order := server.broker.GarbageCollectWorkersExecute(now);
      CollectEvent(before, now, order);
      e := Event(now, Action.CollectWorkers(order));
      Record(e);
    }

    /** The tick of QueueFutureScheduled; it stalls in no disciplined run. */
    method QueueFuture(now: int) returns (stalled: bool, ghost e: Event)
      requires Valid() && !system.stalled && system.clock <= now
      modifies this, server.broker, server.broker.Repr()
      ensures Valid() && Took(e) && e.now == now && stalled == system.stalled
      ensures if stalled then e.action.Stall? else e.action.QueueFuture?
      ensures old(Legal(events)) ==> !stalled
    {
      hide SoundSystem, Enabled, Disciplined, Legal, Next, After, M.DrainAll, M.DrainRounds, M.NothingDue, M.Undelay,
           M.Reenters, B.Broker.Valid, Ends, Safety.Sound, MessageSays, Fenced;
      RunEnds(events, system);
      StateFacts(system);
      ghost var before := system;
      ghost var jobs, job;
      stalled, jobs, job := server.broker.QueueFutureScheduledExecute(now);
      if stalled {
        e := Event(now, Action.Stall(jobs, job));
        StallEvent(before, now, jobs, job);
        if Legal(events) {
          LegalNeverStalls(events, before, e);
        }
      } else {
        e := Event(now, Action.QueueFuture(jobs));
        DrainEvent(before, now, jobs);
      }
      StalledNext(before, e);
      Record(e);
    }

    /** What is proved of all disciplined runs holds of the objects of a disciplined session. */
    lemma DisciplinedSession()
      requires Valid() && Legal(events)
      ensures server.broker.state == At(events, |events|).b && OnceSystem(At(events, |events|))
    {
      hide OnceSystem, Legal, B.Broker.Valid;
      LegalLeads(events, system);
      AtIsOnce(events, |events|);
    }

    /** Reading a node is no event. The reply is what the requests so far say, and what the node object holds. */
    method GetNode(i: Id, n: Id) returns (message: M.NodeMessage)
      requires Valid() && n in server.broker.state.nodes && server.broker.state.nodes[n].decl.instance == i
      ensures n in server.broker.nodes && S.Tells(message, server.broker.nodes[n])
      ensures MessageSays(events, n, message)
    {
      hide B.Broker.Valid, Ends, AllAsked, S.Tells, MessageSays, M.NodeToMessage;
      message := server.GetNode(i, n);
      MessageIsAsRequested(events, system, n);
    }

    /**
     * What a client reads: with honest workers and the requests of a well-scoped program, the reply for n says
     * completed exactly if an answer for n was accepted, and then its value is that of the call in plain Python.
     */
    lemma ReplyIsPlainResult(g: Client.Functions, calls: seq<Client.Call>, n: Id, message: M.NodeMessage)
      requires Valid() && Client.WellScoped(calls) && ForProgram(calls, requests)
      requires forall e | e in events :: Honest(Client.Work(g), e)
      requires n in server.broker.nodes && MessageSays(events, n, message)
      ensures message.completed <==> exists k: nat :: AnswerAt(events, k, n)
      ensures message.completed ==>
        n in Client.Plain(g, calls) && message.resolvedValue == Client.Plain(g, calls)[n]
      ensures !message.completed ==> message.resolvedValue == Raw("")
    {
      hide Honest, Client.WellScoped, Client.Plain, B.Broker.Valid, Ends, AllAsked, ForProgram, AnswerAt, SourceSays;
      ObjectsHoldPlainResults(g, calls);
      server.broker.ResultValues();
      AnswerIsValue(events, n);
      NodeRecord(events, system, n);
      OwnRecord(events, n, system.b.nodes[n]);
    }

    /**
     * The claim of the project on the objects themselves: when the workers are honest and the client runs a well-scoped
     * program, every completed node object holds the value that running the program in plain Python gives its call.
     * Repeated sources, repeated answers and a stalled drain loop do not matter.
     */
    lemma ObjectsHoldPlainResults(g: Client.Functions, calls: seq<Client.Call>)
      requires Valid() && Client.WellScoped(calls) && ForProgram(calls, requests)
      requires forall e | e in events :: Honest(Client.Work(g), e)
      ensures forall n | n in server.broker.nodes && server.broker.nodes[n].completed ::
        n in Client.Plain(g, calls) && server.broker.nodes[n].resolvedValue == Client.Plain(g, calls)[n]
    {
      hide OnceSystem, SoundSystem, Honest, Client.OfProgram, Client.WellScoped, Client.Plain, B.Broker.Valid,
           AllAsked, ForProgram;
      StartIsSound();
      forall e | e in events
        ensures Client.OfProgram(calls, e)
      {
        AskedIsOfProgram(calls, requests, events, e);
      }
      Client.SameResultsAsPlainPython(g, calls, events);
      server.broker.ResultValues();
    }
  }
}
