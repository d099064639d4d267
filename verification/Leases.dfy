/** Leases and retry times over disciplined events; the invariant of disciplined runs. */
module Leases {
  import opened Basics
  import opened Retry
  import opened Inspection
  import opened Model
  import opened Safety
  import opened SafetyOfSteps
  import opened Placement
  import opened Once
  import opened OnceSteps
  import opened OnceTicks
  import opened Runs
  import opened Discipline
  import opened Schedules

  // ---------------------------------------------------------------- open answers

  lemma QuietEventLeases(s: System, e: Event)
    requires OnceSystem(s) && Enabled(s, e)
    requires e.action.CreateWorker? || e.action.CreateInstance? || e.action.CreateNode? || e.action.Ping?
          || e.action.GetNothing? || e.action.QueueFuture?
    ensures SameLeases(s.b, After(s, e))
  {
    hide OnceSystem, SoundSystem, Sound, Graph, OnceEach, JobsFit, NothingFor, FillCache, AllKnown, SameLeases,
      NewNode, DrainAll, DrainRounds, NothingDue;
    OnceFacts(s);
    FillCacheSame(s.b);
    match e.action {
      case CreateNode(n, decl, retry) => NewNodeLeases(s.b, n, decl, PolicyFor(retry), e.now);
      case QueueFuture(jobs) => DrainAllLeases(s.b, jobs, e.now);
      case CreateWorker(_, _, _, _) => CreateWorkerOnce(s, e);
      case Ping(_) => PingOnce(s, e);
      case GetNothing(_) => GetNothingOnce(s, e);
      case CreateInstance(i) => InstanceLeases(s.b, i);
    }
  }

  lemma FillCacheSame(b: State)
    ensures SameLeases(b, b)
  {
  }

  lemma InstanceLeases(b: State, i: Id)
    ensures SameLeases(b, NewInstance(b, i))
  {
  }

  lemma GetWorkLeases(s: System, e: Event)
    requires OnceSystem(s) && Enabled(s, e) && e.action.GetWork?
    ensures e.action.worker in s.b.workers
    ensures LeaseStep(s.b, After(s, e), {(e.action.worker, e.action.job.node)}, {})
  {
    OnceFacts(s);
    hide OnceSystem, SoundSystem, Sound, Graph, OnceEach, JobsFit, AllKnown, Claim, LeastJob, LeaseStep;
    var a := e.action;
    LeastJobIsQueued(s.b, a.worker, a.queue, a.job);
    ClaimLeases(s.b, a.worker, a.queue, a.job, e.now);
  }

  lemma AnswerLeases(s: System, e: Event)
    requires OnceSystem(s) && Enabled(s, e) && Disciplined(s, e)
    requires e.action.SubmitWork? || e.action.SubmitFailure?
    requires e.action.worker in s.b.workers && !s.b.workers[e.action.worker].invalidated
    ensures LeaseStep(s.b, After(s, e), {}, {(e.action.worker, e.action.message.identifier)})
  {
    OnceFacts(s);
    SoundBasics(s.b);
    var w, n := e.action.worker, e.action.message.identifier;
    AnswerIsHeld(s, w, n);
    assert WithinBudget(s.b.nodes[n]);
    hide OnceSystem, SoundSystem, Sound, Graph, OnceEach, JobsFit, AllKnown, ExecutionDidResolve, ExecutionDidFail,
      LeaseStep, WithinBudget;
    if e.action.SubmitWork? {
      ResolveLeases(s.b, w, n, e.action.value, e.now);
    } else {
      EnabledFacts(s, e);
      FailLeases(s.b, w, n, e.action.traceback, e.action.jitter, e.now);
    }
  }

  /** An answer of a fenced worker is refused: the broker's memory does not change at all. */
  lemma FencedAnswerChangesNothing(s: System, e: Event)
    requires SoundSystem(s) && Enabled(s, e) && (e.action.SubmitWork? || e.action.SubmitFailure?)
    requires e.action.worker in s.b.workers && s.b.workers[e.action.worker].invalidated
    ensures After(s, e) == s.b && Next(s, e).b == s.b && Next(s, e).sent == s.sent
  {
    hide Sound, Describes;
  }

  lemma FencedOpen(s: System, t: System, w: Id, n: Id)
    requires OpenFits(s) && w in s.b.workers && s.b.workers[w].invalidated
    requires t.b == s.b && t.open == s.open - {(w, n)}
    ensures OpenFits(t)
  {
  }

  lemma NextOpen(s: System, e: Event)
    requires SoundSystem(s) && Enabled(s, e)
    ensures Next(s, e).open == match e.action
      case GetWork(w, _, job) => s.open + {(w, job.node)}
      case SubmitWork(w, m, _) => s.open - {(w, m.identifier)}
      case SubmitFailure(w, m, _, _) => s.open - {(w, m.identifier)}
      case _ => s.open
  {
    hide SoundSystem, Enabled, After, Sound;
  }

  lemma AnswerOpen(s: System, e: Event)
    requires OnceSystem(s) && Enabled(s, e) && Disciplined(s, e)
    requires e.action.SubmitWork? || e.action.SubmitFailure?
    ensures OpenFits(Next(s, e))
  {
    hide OnceSystem, SoundSystem, Sound, OnceEach, AllKnown, After, Enabled, Next, OpenFits, LeaseStep, Disciplined,
      Describes;
    OpenFact(s);
    OnceFacts(s);
    NextOpen(s, e);
    NextIsAfter(s, e);
    AnswersKnown(s, e);
    var w, n := e.action.worker, e.action.message.identifier;
    if s.b.workers[w].invalidated {
      FencedAnswerChangesNothing(s, e);
      FencedOpen(s, Next(s, e), w, n);
    } else {
      AnswerLeases(s, e);
      OpenFollows(s, Next(s, e), {}, {(w, n)});
    }
  }

  lemma OpenStep(s: System, e: Event)
    requires OnceSystem(s) && Enabled(s, e) && Disciplined(s, e)
    ensures OpenFits(Next(s, e))
  {
    hide OnceSystem, SoundSystem, Sound, OnceEach, AllKnown, After, Enabled, Next, OpenFits, LeaseStep,
      SameLeases, Disciplined;
    NeverStalls(s, e);
    OpenFact(s);
    OnceFacts(s);
    NextOpen(s, e);
    NextIsAfter(s, e);
    if e.action.SubmitWork? || e.action.SubmitFailure? {
      AnswerOpen(s, e);
    } else if e.action.GetWork? {
      GetWorkLeases(s, e);
      OpenFollows(s, Next(s, e), {(e.action.worker, e.action.job.node)}, {});
    } else if e.action.CollectWorkers? {
      CollectLeases(s, e);
      OpenFollows(s, Next(s, e), {}, {});
    } else {
      QuietEventLeases(s, e);
      SameLeasesStep(s.b, Next(s, e).b);
      OpenFollows(s, Next(s, e), {}, {});
    }
  }

  lemma OpenFact(s: System)
    requires OnceSystem(s)
    ensures OpenFits(s)
  {
  }

  lemma CollectLeases(s: System, e: Event)
    requires OnceSystem(s) && Enabled(s, e) && e.action.CollectWorkers?
    ensures LeaseStep(s.b, After(s, e), {}, {})
  {
    OnceFacts(s);
    hide OnceSystem, SoundSystem, Sound, Graph, OnceEach, JobsFit, AllKnown, CollectAll, LeaseStep, ClaimsKnown;
    CollectAllLeases(s.b, e.action.order, e.now);
  }

  // ---------------------------------------------------------------- retry times

  /** Retry times stay, or are cleared once they have passed. */
  ghost predicate RetryStep(b: State, c: State, now: int) {
    forall n | n in b.nodes :: n in c.nodes &&
      (c.nodes[n].nextRetry == b.nodes[n].nextRetry || (c.nodes[n].nextRetry == -1 && b.nodes[n].nextRetry <= now))
  }

  lemma RetryStepTransitive(b: State, c: State, d: State, now: int)
    requires RetryStep(b, c, now) && RetryStep(c, d, now)
    ensures RetryStep(b, d, now)
  {
  }

  lemma SameNodesRetry(b: State, c: State, now: int)
    requires c.nodes == b.nodes
    ensures RetryStep(b, c, now)
  {
  }

  lemma {:induction false} DrainRetry(b: State, jobs: seq<Job>, now: int)
    requires AllKnown(b) && now >= 0 && forall j | j in jobs :: j.node in b.nodes
    requires DrainRounds(b, jobs, now)
    ensures RetryStep(b, DrainAll(b, jobs, now), now)
  {
    if jobs == [] {
      SameNodesRetry(b, b, now);
    } else {
      var init, job := jobs[..|jobs| - 1], jobs[|jobs| - 1];
      hide DrainOne, RetryStep, Least;
      DrainRetry(b, init, now);
      var c := DrainAll(b, init, now);
      DrainOneIs(c, job, now);
      hide SameWorkers;
      ClearedRetry(c, DrainOne(c, job, now), job.node, now);
      RetryStepTransitive(b, c, DrainOne(c, job, now), now);
    }
  }

  lemma ClearedRetry(b: State, c: State, n: Id, now: int)
    requires n in b.nodes && !MustWait(b.nodes[n], now) && now >= 0
    requires c.nodes == b.nodes[n := b.nodes[n].(nextRetry := -1)]
    ensures RetryStep(b, c, now)
  {
  }

  lemma {:induction false} CollectRetry(b: State, ws: seq<Id>, now: int)
    requires AllKnown(b) && ClaimsKnown(b) && OnceEach(b)
    ensures RetryStep(b, CollectAll(b, ws, now), now)
  {
    if ws == [] {
      SameNodesRetry(b, b, now);
      hide OnceEach;
    } else {
      hide OnceEach, ClaimsKnown, CollectWorker, RetryStep;
      var init, w := ws[..|ws| - 1], ws[|ws| - 1];
      CollectRetry(b, init, now);
      CollectAllKeepsOnce(b, init, now);
      var c := CollectAll(b, init, now);
      CollectOneRetry(c, w, now);
      RetryStepTransitive(b, c, CollectWorker(c, w, now), now);
    }
  }

  lemma CollectOneRetry(b: State, w: Id, now: int)
    requires AllKnown(b) && ClaimsKnown(b) && OnceEach(b)
    ensures RetryStep(b, CollectWorker(b, w, now), now)
  {
    if w in b.workers && Stale(b.workers[w], now) {
      hide Placed, FutureFits, Leased, Budgeted, Distinct, CollectWorker;
      ClaimsAreReclaimable(b, w);
      CollectIs(b, w, now);
    } else {
      hide OnceEach;
    }
  }

  lemma ResolveRetry(b: State, w: Id, n: Id, value: Obj, now: int)
    requires Graph(b) && OnceEach(b) && Holds(b, w, n)
    ensures RetryStep(b, ExecutionDidResolve(b, n, value, now), now)
  {
    hide Placed, FutureFits, Leased, Budgeted, Distinct, SourcesDone, NotifyAll;
    HeldFacts(b, n);
    SettledShape(b, w, n, value);
    SettledKeeps(b, w, n, value);
    DestinationsArePrompt(b, w, n, value);
    NotifyEffect(Settled(b, n, value), b.nodes[n].destinations, now);
  }

  lemma NewNodeRetry(b: State, n: Id, decl: Decl, policy: Option<Policy>, now: int)
    requires MayInsert(b, n, decl)
    ensures RetryStep(b, NewNode(b, n, decl, policy, now), now)
    ensures NewNode(b, n, decl, policy, now).nodes[n].nextRetry == -1
  {
  }

  lemma AnswerRetry(s: System, e: Event)
    requires OnceSystem(s) && Enabled(s, e) && Disciplined(s, e) && e.action.SubmitWork?
    ensures RetryStep(s.b, After(s, e), e.now)
  {
    OnceFacts(s);
    SoundBasics(s.b);
    var w, n := e.action.worker, e.action.message.identifier;
    AnswerIsHeld(s, w, n);
    hide OnceSystem, SoundSystem, Sound, Graph, OnceEach, JobsFit, AllKnown, ExecutionDidResolve, RetryStep;
    SameNodesRetry(s.b, s.b, e.now);
    if !s.b.workers[w].invalidated {
      ResolveRetry(s.b, w, n, e.action.value, e.now);
    }
  }

  lemma CreateNodeRetry(s: System, e: Event)
    requires OnceSystem(s) && Enabled(s, e) && e.action.CreateNode?
    ensures RetryStep(s.b, After(s, e), e.now)
    ensures e.action.node !in s.b.nodes && e.action.node in After(s, e).nodes
    ensures After(s, e).nodes[e.action.node].nextRetry == -1
  {
    hide OnceSystem, SoundSystem, Sound, RetryStep, NewNode;
    OnceFacts(s);
    NewNodeRetry(s.b, e.action.node, e.action.decl, PolicyFor(e.action.retry), e.now);
  }

  lemma GetWorkRetry(s: System, e: Event)
    requires OnceSystem(s) && Enabled(s, e) && e.action.GetWork?
    ensures RetryStep(s.b, After(s, e), e.now)
  {
    hide OnceSystem, SoundSystem, Sound, RetryStep, Claim, LeastJob;
    OnceFacts(s);
    var a := e.action;
    LeastJobIsQueued(s.b, a.worker, a.queue, a.job);
    ClaimRetry(s.b, a.worker, a.queue, a.job, e.now);
  }

  lemma TickRetry(s: System, e: Event)
    requires OnceSystem(s) && Enabled(s, e)
    requires e.action.CollectWorkers? || e.action.QueueFuture?
    ensures RetryStep(s.b, After(s, e), e.now)
  {
    hide OnceSystem, SoundSystem, Sound, OnceEach, RetryStep, DrainAll, DrainRounds, NothingDue, CollectAll,
         ClaimsKnown;
    OnceFacts(s);
    EnabledFacts(s, e);
    if e.action.CollectWorkers? {
      CollectRetry(s.b, e.action.order, e.now);
    } else {
      DrainRetry(s.b, e.action.jobs, e.now);
    }
  }

  lemma PlainEventRetry(s: System, e: Event)
    requires OnceSystem(s) && Enabled(s, e)
    requires e.action.CreateWorker? || e.action.CreateInstance? || e.action.Ping? || e.action.GetNothing?
    ensures RetryStep(s.b, After(s, e), e.now)
  {
  }

  lemma QuietEventRetry(s: System, e: Event)
    requires OnceSystem(s) && Enabled(s, e)
    requires !e.action.SubmitWork? && !e.action.SubmitFailure?
    ensures RetryStep(s.b, After(s, e), e.now)
  {
    hide OnceSystem, SoundSystem, Enabled, After, RetryStep;
    NeverStalls(s, e);
    if e.action.CreateNode? {
      CreateNodeRetry(s, e);
    } else if e.action.GetWork? {
      GetWorkRetry(s, e);
    } else if e.action.CollectWorkers? || e.action.QueueFuture? {
      TickRetry(s, e);
    } else {
      PlainEventRetry(s, e);
    }
  }

  lemma ClaimRetry(b: State, w: Id, q: string, job: Job, now: int)
    requires w in b.workers && q in b.queues && job.node in b.nodes
    ensures RetryStep(b, Claim(b, w, q, job, now), now)
  {
  }

  lemma TimesFollow(s: System, t: System)
    requires s.notBefore.Keys == s.b.nodes.Keys && TimesFit(s) && RetryStep(s.b, t.b, t.clock)
    requires t.b.nodes.Keys == s.b.nodes.Keys && t.notBefore == s.notBefore && s.clock <= t.clock
    ensures TimesFit(t)
  {
  }

  lemma TimesFollowCreation(s: System, t: System, n: Id)
    requires s.notBefore.Keys == s.b.nodes.Keys && TimesFit(s) && RetryStep(s.b, t.b, t.clock) && n !in s.b.nodes
    requires t.b.nodes.Keys == s.b.nodes.Keys + {n} && t.b.nodes[n].nextRetry == -1
    requires t.notBefore == s.notBefore[n := t.clock] && s.clock <= t.clock
    ensures TimesFit(t)
  {
  }

  lemma TimesFollowFailure(s: System, t: System, w: Id, n: Id, traceback: string, jitter: real)
    requires s.notBefore.Keys == s.b.nodes.Keys && TimesFit(s) && n in s.b.nodes && w in s.b.workers
    requires Failed(s.b, t.b, w, n, traceback, jitter, t.clock) && s.clock <= t.clock
    requires s.b.nodes[n].nextRetry == -1
    requires Retries(s.b.nodes[n], jitter) ==> FailedNode(s.b.nodes[n], traceback, jitter, t.clock).nextRetry > -1
    requires t.notBefore == s.notBefore[n := Earliest(s.b.nodes[n], jitter, t.clock)]
    ensures TimesFit(t)
  {
  }

  lemma NextTimes(s: System, e: Event)
    requires SoundSystem(s) && Enabled(s, e)
    ensures Next(s, e).clock == e.now
    ensures !e.action.CreateNode? && !e.action.SubmitFailure? ==> Next(s, e).notBefore == s.notBefore
    ensures e.action.CreateNode? ==> Next(s, e).notBefore == s.notBefore[e.action.node := e.now]
  {
    hide SoundSystem, Enabled, After, Sound;
  }

  lemma NextFailureTimes(s: System, e: Event)
    requires SoundSystem(s) && Enabled(s, e) && e.action.SubmitFailure?
    requires e.action.worker in s.b.workers && e.action.message.identifier in s.b.nodes
    ensures Next(s, e).notBefore ==
      if s.b.workers[e.action.worker].invalidated then s.notBefore
      else s.notBefore[e.action.message.identifier :=
                         Earliest(s.b.nodes[e.action.message.identifier], e.action.jitter, e.now)]
  {
    hide SoundSystem, Enabled, After, Sound, Earliest;
  }

  lemma FailureEffect(s: System, e: Event)
    requires OnceSystem(s) && Enabled(s, e) && Disciplined(s, e) && e.action.SubmitFailure?
    requires e.action.worker in s.b.workers && !s.b.workers[e.action.worker].invalidated
    ensures var w, n, t, j := e.action.worker, e.action.message.identifier, e.action.traceback, e.action.jitter;
      && Holds(s.b, w, n) && s.b.nodes[n].nextRetry == -1 && WithinBudget(s.b.nodes[n]) && !Exhausted(s.b.nodes[n])
      && Failed(s.b, After(s, e), w, n, t, j, e.now) && Jitter(j) && e.now >= 0
      && (Retries(s.b.nodes[n], j) ==> FailedNode(s.b.nodes[n], t, j, e.now).nextRetry >= e.now + 1000)
  {
    var w, n := e.action.worker, e.action.message.identifier;
    AnswerIsHeld(s, w, n);
    OnceFacts(s);
    assert WithinBudget(s.b.nodes[n]);
    hide OnceSystem, SoundSystem, Sound, Graph, Placed, FutureFits, Leased, Budgeted, Distinct, JobsFit, AllKnown,
      ExecutionDidFail, Failed, FailedNode, Retries, WithinBudget, Exhausted, ReadyCount, DelayedCount, SourcesDone;
    EnabledFacts(s, e);
    HeldFacts(s.b, n);
    FailIs(s.b, w, n, e.action.traceback, e.action.jitter, e.now);
    FailBudget(s.b.nodes[n], e.action.traceback, e.action.jitter, e.now);
  }

  lemma FailureTimes(s: System, e: Event)
    requires OnceSystem(s) && Enabled(s, e) && Disciplined(s, e) && e.action.SubmitFailure?
    ensures Next(s, e).notBefore.Keys == Next(s, e).b.nodes.Keys && TimesFit(Next(s, e))
  {
    hide OnceSystem, SoundSystem, Sound, OnceEach, Enabled, Disciplined, After, Next, TimesFit, Failed, FailedNode,
      Retries, WithinBudget, Exhausted, Earliest, RetryStep, Describes, Holds;
    OnceFacts(s);
    EnabledFacts(s, e);
    TimesFact(s);
    AnswersKnown(s, e);
    NextIsAfter(s, e);
    NextTimes(s, e);
    KnownMessage(s.b, e.action.message);
    NextFailureTimes(s, e);
    NextKeepsDomain(s, e);
    var t, w, n := Next(s, e), e.action.worker, e.action.message.identifier;
    if s.b.workers[w].invalidated {
      FencedAnswerChangesNothing(s, e);
      SameNodesRetry(s.b, t.b, t.clock);
      TimesFollow(s, t);
    } else {
      FailureEffect(s, e);
      TimesFollowFailure(s, t, w, n, e.action.traceback, e.action.jitter);
    }
  }

  lemma KnownMessage(b: State, m: NodeMessage)
    requires Describes(b, m)
    ensures m.identifier in b.nodes
  {
  }

  lemma TimesFact(s: System)
    requires OnceSystem(s)
    ensures TimesFit(s)
  {
  }

  lemma TimesStep(s: System, e: Event)
    requires OnceSystem(s) && Enabled(s, e) && Disciplined(s, e)
    ensures Next(s, e).notBefore.Keys == Next(s, e).b.nodes.Keys && TimesFit(Next(s, e))
  {
    hide OnceSystem, SoundSystem, Sound, OnceEach, Enabled, Disciplined, After, Next, TimesFit, RetryStep, Kept,
      SameResults;
    OnceFacts(s);
    TimesFact(s);
    NextIsAfter(s, e);
    NextKeepsDomain(s, e);
    EnabledFacts(s, e);
    NextTimes(s, e);
    AfterKeeps(s, e);
    var t := Next(s, e);
    if e.action.SubmitFailure? {
      FailureTimes(s, e);
    } else if e.action.CreateNode? {
      CreateNodeRetry(s, e);
      CreatedDecl(s, e);
      TimesFollowCreation(s, t, e.action.node);
    } else if e.action.SubmitWork? {
      AnswerRetry(s, e);
      TimesFollow(s, t);
    } else {
      QuietEventRetry(s, e);
      TimesFollow(s, t);
    }
  }

  // ---------------------------------------------------------------- the invariant of disciplined runs

  lemma AssembleOnce(s: System)
    requires SoundSystem(s) && AllKnown(s.b) && OnceEach(s.b) && OpenFits(s)
    requires s.notBefore.Keys == s.b.nodes.Keys && TimesFit(s) && !s.stalled
    ensures OnceSystem(s)
  {
  }

  lemma NextStalled(s: System, e: Event)
    requires OnceSystem(s) && Enabled(s, e)
    ensures SoundSystem(s) && !Next(s, e).stalled
  {
    hide OnceSystem, SoundSystem, Enabled, After, Sound;
    OnceFacts(s);
    NeverStalls(s, e);
  }

  /** Every disciplined event keeps the invariant. */
  lemma NextKeepsOnce(s: System, e: Event)
    requires OnceSystem(s) && Enabled(s, e) && Disciplined(s, e)
    ensures OnceSystem(Next(s, e))
  {
    hide OnceSystem, SoundSystem, Sound, OnceEach, Enabled, Disciplined, After, Next, TimesFit, OpenFits, AllKnown;
    OnceFacts(s);
    NextKeepsSound(s, e);
    NextIsAfter(s, e);
    AfterOnce(s, e);
    OpenStep(s, e);
    TimesStep(s, e);
    NextStalled(s, e);
    AssembleOnce(Next(s, e));
  }

  ghost predicate DisciplinedRun(s: System, es: seq<Event>)
    requires OnceSystem(s)
    decreases |es|
  {
    es == [] ||
      (Enabled(s, es[0]) && Disciplined(s, es[0])
       && (NextKeepsOnce(s, es[0]); DisciplinedRun(Next(s, es[0]), es[1..])))
  }

  lemma {:induction false} DisciplinedIsRun(s: System, es: seq<Event>)
    requires OnceSystem(s) && DisciplinedRun(s, es)
    ensures SoundSystem(s) && Run(s, es) && OnceSystem(Exec(s, es))
    decreases |es|
  {
    OnceFacts(s);
    hide OnceSystem, SoundSystem, Enabled, Disciplined, Next, OnceEach, Graph, JobsFit, AllKnown;
    if es != [] {
      NextKeepsOnce(s, es[0]);
      DisciplinedIsRun(Next(s, es[0]), es[1..]);
    }
  }
}
