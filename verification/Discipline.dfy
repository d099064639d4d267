/**
 * Disciplined runs: clients list each source of a node once, and a worker answers a message once. Answers may still be
 * arbitrarily late, calls may fail, and workers may be garbage collected at any time.
 */
module Discipline {
  import opened Basics
  import opened Retry
  import opened Inspection
  import opened Model
  import opened Safety
  import opened SafetyOfSteps
  import opened Placement
  import opened Once
  import opened OnceSteps
  import opened OnceTicks
  import opened Runs

  ghost predicate Disciplined(s: System, e: Event) {
    match e.action
    case CreateNode(_, decl, _) => NoDup(decl.sources)
    case SubmitWork(w, m, _) => (w, m.identifier) in s.open
    case SubmitFailure(w, m, _, _) => (w, m.identifier) in s.open
    case _ => true
  }

  /** For a worker that is not fenced, what was handed out and not yet answered is exactly what it holds. */
  ghost predicate OpenFits(s: System) {
    && (forall w, n | (w, n) in s.open :: w in s.b.workers)
    && (forall w, n | w in s.b.workers && !s.b.workers[w].invalidated ::
          (w, n) in s.open <==> n in s.b.workers[w].claimedWork)
  }

  /** A pending retry time is the earliest time; without one, that time has passed. */
  ghost predicate TimesFit(s: System)
    requires s.notBefore.Keys == s.b.nodes.Keys
  {
    && s.clock >= 0
    && forall n | n in s.b.nodes ::
         if s.b.nodes[n].nextRetry == -1 then s.notBefore[n] <= s.clock else s.notBefore[n] == s.b.nodes[n].nextRetry
  }

  ghost predicate OnceSystem(s: System) {
    SoundSystem(s) && OnceEach(s.b) && OpenFits(s) && TimesFit(s) && !s.stalled
  }

  lemma StartIsOnce()
    ensures OnceSystem(START)
  {
    EmptyIsSound();
  }

  // ---------------------------------------------------------------- places

  /** What one event needs to know about the state it starts from. */
  lemma OnceFacts(s: System)
    requires OnceSystem(s)
    ensures Graph(s.b) && AllKnown(s.b) && JobsFit(s.b) && SourcesKnown(s.b) && ClaimsKnown(s.b) && OnceEach(s.b)
    ensures SoundSystem(s) && s.clock >= 0 && s.notBefore.Keys == s.b.nodes.Keys && !s.stalled
  {
    SoundBasics(s.b);
  }

  lemma AnswerIsHeld(s: System, w: Id, n: Id)
    requires OnceSystem(s) && (w, n) in s.open
    ensures w in s.b.workers && (s.b.workers[w].invalidated || Holds(s.b, w, n))
  {
  }

  lemma EnabledFacts(s: System, e: Event)
    requires SoundSystem(s) && Enabled(s, e)
    ensures s.clock <= e.now
  {
  }

  lemma CreateNodeOnce(s: System, e: Event)
    requires OnceSystem(s) && Enabled(s, e) && Disciplined(s, e) && e.action.CreateNode?
    ensures AllKnown(After(s, e)) && OnceEach(After(s, e))
  {
    OnceFacts(s);
    hide OnceSystem, SoundSystem, Sound, Graph, OnceEach, NewNode, JobsFit;
    NewNodeKeepsOnce(s.b, e.action.node, e.action.decl, PolicyFor(e.action.retry), e.now);
  }

  lemma CreateWorkerOnce(s: System, e: Event)
    requires OnceSystem(s) && Enabled(s, e) && e.action.CreateWorker?
    ensures AllKnown(After(s, e)) && OnceEach(After(s, e)) && SameLeases(s.b, After(s, e))
  {
    OnceFacts(s);
    hide OnceSystem, SoundSystem, Sound, Graph, OnceEach, JobsFit, AllKnown;
    WorkersOnly(s.b, After(s, e));
  }

  lemma PingOnce(s: System, e: Event)
    requires OnceSystem(s) && Enabled(s, e) && e.action.Ping?
    ensures AllKnown(After(s, e)) && OnceEach(After(s, e)) && SameLeases(s.b, After(s, e))
  {
    OnceFacts(s);
    hide OnceSystem, SoundSystem, Sound, Graph, OnceEach, JobsFit, AllKnown;
    WorkersOnly(s.b, After(s, e));
  }

  lemma FillCacheChanges(b: State, w: Id)
    requires w in b.workers
    ensures var c := FillCache(b, w);
      && SameLeases(b, b) && SameLeases(b, c) && c.nodes == b.nodes && c.queues == b.queues && c.future == b.future
      && c.instances == b.instances
  {
  }

  lemma GetNothingOnce(s: System, e: Event)
    requires OnceSystem(s) && Enabled(s, e) && e.action.GetNothing?
    ensures AllKnown(After(s, e)) && OnceEach(After(s, e)) && SameLeases(s.b, After(s, e))
  {
    hide OnceSystem, SoundSystem, Sound, Graph, OnceEach, JobsFit, NothingFor, FillCache, AllKnown, SameLeases;
    OnceFacts(s);
    FillCacheChanges(s.b, e.action.worker);
    WorkersOnly(s.b, After(s, e));
  }

  lemma CreateInstanceOnce(s: System, e: Event)
    requires OnceSystem(s) && Enabled(s, e) && e.action.CreateInstance?
    ensures AllKnown(After(s, e)) && OnceEach(After(s, e))
  {
    OnceFacts(s);
    hide OnceSystem, SoundSystem, Sound, Graph, OnceEach, JobsFit, AllKnown;
    NewInstanceKeepsOnce(s.b, e.action.instance);
  }

  lemma GetWorkOnce(s: System, e: Event)
    requires OnceSystem(s) && Enabled(s, e) && e.action.GetWork?
    ensures AllKnown(After(s, e)) && OnceEach(After(s, e))
  {
    OnceFacts(s);
    hide OnceSystem, SoundSystem, Sound, Graph, OnceEach, JobsFit, AllKnown, Claim, LeastJob;
    var a := e.action;
    LeastJobIsQueued(s.b, a.worker, a.queue, a.job);
    ClaimKeepsOnce(s.b, a.worker, a.queue, a.job, e.now);
  }

  lemma SubmitOnce(s: System, e: Event)
    requires OnceSystem(s) && Enabled(s, e) && Disciplined(s, e)
    requires e.action.SubmitWork? || e.action.SubmitFailure?
    ensures AllKnown(After(s, e)) && OnceEach(After(s, e))
  {
    OnceFacts(s);
    AnswerIsHeld(s, e.action.worker, e.action.message.identifier);
    SoundBasics(s.b);
    hide OnceSystem, SoundSystem, Sound, Graph, OnceEach, JobsFit, AllKnown, ExecutionDidResolve, ExecutionDidFail;
    var w, n := e.action.worker, e.action.message.identifier;
    if !s.b.workers[w].invalidated {
      if e.action.SubmitWork? {
        ResolveKeepsOnce(s.b, w, n, e.action.value, e.now);
      } else {
        EnabledFacts(s, e);
        FailKeepsOnce(s.b, w, n, e.action.traceback, e.action.jitter, e.now);
      }
    }
  }

  lemma TickOnce(s: System, e: Event)
    requires OnceSystem(s) && Enabled(s, e)
    requires e.action.CollectWorkers? || e.action.QueueFuture?
    ensures AllKnown(After(s, e)) && OnceEach(After(s, e))
  {
    hide OnceSystem, SoundSystem, Sound, Graph, OnceEach, JobsFit, AllKnown, CollectAll, DrainAll, DrainRounds,
      NothingDue, ClaimsKnown;
    OnceFacts(s);
    if e.action.CollectWorkers? {
      CollectAllKeepsOnce(s.b, e.action.order, e.now);
    } else {
      DrainAllKeepsOnce(s.b, e.action.jobs, e.now);
    }
  }

  /** In disciplined runs the drain loop never waits for the lock it holds. */
  lemma NeverStalls(s: System, e: Event)
    requires OnceSystem(s) && Enabled(s, e)
    ensures !e.action.Stall?
  {
    hide OnceSystem, SoundSystem, Sound, Graph, OnceEach, JobsFit, AllKnown, DrainAll, DrainRounds, MustWait,
      ClaimsKnown;
    OnceFacts(s);
    if e.action.Stall? {
      var jobs, job := e.action.jobs, e.action.job;
      DrainAllKeepsOnce(s.b, jobs, e.now);
      DrainNeverReenters(DrainAll(s.b, jobs, e.now), job, e.now);
      assert false;
    }
  }

  /** Every disciplined event keeps every node in exactly one place. */
  lemma AfterOnce(s: System, e: Event)
    requires OnceSystem(s) && Enabled(s, e) && Disciplined(s, e)
    ensures AllKnown(After(s, e)) && OnceEach(After(s, e))
  {
    hide OnceSystem, SoundSystem, Sound, OnceEach, AllKnown, Enabled, Disciplined, After;
    NeverStalls(s, e);
    match e.action {
      case CreateWorker(_, _, _, _) => CreateWorkerOnce(s, e);
      case CreateInstance(_) => CreateInstanceOnce(s, e);
      case CreateNode(_, _, _) => CreateNodeOnce(s, e);
      case Ping(_) => PingOnce(s, e);
      case GetWork(_, _, _) => GetWorkOnce(s, e);
      case GetNothing(_) => GetNothingOnce(s, e);
      case SubmitWork(_, _, _) => SubmitOnce(s, e);
      case SubmitFailure(_, _, _, _) => SubmitOnce(s, e);
      case CollectWorkers(_) => TickOnce(s, e);
      case QueueFuture(_) => TickOnce(s, e);
    }
  }

  // ---------------------------------------------------------------- leases

  /** Claims of workers across an event: what w gains, what it loses, who is fenced. */
  ghost predicate LeaseStep(b: State, c: State, gained: set<(Id, Id)>, lost: set<(Id, Id)>) {
    && b.workers.Keys <= c.workers.Keys
    && (forall w | w in c.workers && !c.workers[w].invalidated ::
          w in b.workers ==> !b.workers[w].invalidated)
    && (forall w, n | w in c.workers && !c.workers[w].invalidated ::
          n in c.workers[w].claimedWork <==>
            ((w, n) in gained || (w in b.workers && n in b.workers[w].claimedWork && (w, n) !in lost)))
  }

  lemma OpenFollows(s: System, t: System, gained: set<(Id, Id)>, lost: set<(Id, Id)>)
    requires OpenFits(s) && LeaseStep(s.b, t.b, gained, lost)
    requires forall w, n | (w, n) in gained :: w in s.b.workers
    requires t.open == s.open + gained - lost && gained !! lost
    ensures OpenFits(t)
  {
  }

  lemma SameLeasesStep(b: State, c: State)
    requires SameLeases(b, c)
    ensures LeaseStep(b, c, {}, {})
  {
  }

  lemma SameWorkersLeases(b: State, c: State)
    requires SameWorkers(b, c)
    ensures SameLeases(b, c)
  {
  }

  lemma SameLeasesTransitive(b: State, c: State, d: State)
    requires SameLeases(b, c) && SameLeases(c, d)
    ensures SameLeases(b, d)
  {
  }

  lemma NewNodeLeases(b: State, n: Id, decl: Decl, policy: Option<Policy>, now: int)
    requires MayInsert(b, n, decl)
    ensures SameLeases(b, NewNode(b, n, decl, policy, now))
  {
  }

  lemma ClaimLeases(b: State, w: Id, q: string, job: Job, now: int)
    requires w in b.workers && !b.workers[w].invalidated && q in b.queues && job.node in b.nodes
    ensures LeaseStep(b, Claim(b, w, q, job, now), {(w, job.node)}, {})
  {
  }

  lemma ReleaseLeases(b: State, c: State, w: Id, n: Id)
    requires w in b.workers
    requires c.workers == b.workers[w := b.workers[w].(claimedWork := Without(b.workers[w].claimedWork, n))]
    ensures LeaseStep(b, c, {}, {(w, n)})
  {
    WithoutIsLess(b.workers[w].claimedWork, n);
    hide Without;
  }

  lemma LeaseStepThenSame(b: State, c: State, d: State, gained: set<(Id, Id)>, lost: set<(Id, Id)>)
    requires LeaseStep(b, c, gained, lost) && SameLeases(c, d) && c.workers.Keys == d.workers.Keys
    ensures LeaseStep(b, d, gained, lost)
  {
  }

  lemma ResolveLeases(b: State, w: Id, n: Id, value: Obj, now: int)
    requires Graph(b) && OnceEach(b) && Holds(b, w, n)
    ensures LeaseStep(b, ExecutionDidResolve(b, n, value, now), {}, {(w, n)})
  {
    hide Placed, FutureFits, Leased, Budgeted, Distinct, SourcesDone, NotifyAll, SameLeases, LeaseStep;
    HeldFacts(b, n);
    SettledShape(b, w, n, value);
    SettledKeeps(b, w, n, value);
    DestinationsArePrompt(b, w, n, value);
    var c, ds := Settled(b, n, value), b.nodes[n].destinations;
    NotifyEffect(c, ds, now);
    var r := NotifyAll(c, ds, now);
    ReleaseLeases(b, c, w, n);
    SameWorkersLeases(c, r);
    LeaseStepThenSame(b, c, r, {}, {(w, n)});
  }

  lemma FailLeases(b: State, w: Id, n: Id, traceback: string, jitter: real, now: int)
    requires AllKnown(b) && Holds(b, w, n) && WithinBudget(b.nodes[n]) && Jitter(jitter) && now >= 0
    ensures LeaseStep(b, ExecutionDidFail(b, n, traceback, jitter, now), {}, {(w, n)})
  {
    FailIs(b, w, n, traceback, jitter, now);
    hide ExecutionDidFail, FailedNode, Retries, WithinBudget, LeaseStep;
    ReleaseLeases(b, ExecutionDidFail(b, n, traceback, jitter, now), w, n);
  }

  lemma CollectedLeases(b: State, r: State, w: Id)
    requires w in b.workers && Collected(b, r, w)
    ensures LeaseStep(b, r, {}, {})
  {
  }

  lemma CollectWorkerLeases(b: State, w: Id, now: int)
    requires AllKnown(b) && ClaimsKnown(b) && OnceEach(b)
    ensures LeaseStep(b, CollectWorker(b, w, now), {}, {})
  {
    if w in b.workers && Stale(b.workers[w], now) {
      hide Placed, FutureFits, Leased, Budgeted, Distinct, CollectWorker, ClaimsKnown, AllKnown, LeaseStep, Collected;
      ClaimsAreReclaimable(b, w);
      CollectIs(b, w, now);
      CollectedLeases(b, CollectWorker(b, w, now), w);
    } else {
      hide OnceEach;
    }
  }

  lemma {:induction false} CollectAllLeases(b: State, ws: seq<Id>, now: int)
    requires AllKnown(b) && ClaimsKnown(b) && OnceEach(b)
    ensures LeaseStep(b, CollectAll(b, ws, now), {}, {})
  {
    if ws == [] {
      hide OnceEach;
    } else {
      hide OnceEach, ClaimsKnown, CollectWorker, LeaseStep, AllKnown;
      CollectAllLeases(b, ws[..|ws| - 1], now);
      CollectAllKeepsOnce(b, ws[..|ws| - 1], now);
      var c := CollectAll(b, ws[..|ws| - 1], now);
      CollectWorkerLeases(c, ws[|ws| - 1], now);
      LeaseStepTransitive(b, c, CollectWorker(c, ws[|ws| - 1], now));
    }
  }

  lemma LeaseStepTransitive(b: State, c: State, d: State)
    requires LeaseStep(b, c, {}, {}) && LeaseStep(c, d, {}, {}) && c.workers.Keys <= b.workers.Keys + c.workers.Keys
    requires forall w | w in d.workers && !d.workers[w].invalidated && w in c.workers :: !c.workers[w].invalidated
    ensures LeaseStep(b, d, {}, {})
  {
  }

  lemma {:induction false} DrainAllLeases(b: State, jobs: seq<Job>, now: int)
    requires AllKnown(b) && forall j | j in jobs :: j.node in b.nodes
    ensures SameLeases(b, DrainAll(b, jobs, now))
  {
    if jobs != [] {
      hide EnqueueNode, SameLeases;
      var init, job := jobs[..|jobs| - 1], jobs[|jobs| - 1];
      DrainAllLeases(b, init, now);
      var c := DrainAll(b, init, now);
      var d := Undelay(c, job);
      EnqueueKeepsWorkers(d, job.node, now);
      SameWorkersLeases(c, DrainAll(b, jobs, now));
      SameLeasesTransitive(b, c, DrainAll(b, jobs, now));
    } else {
      hide AllKnown;
    }
  }
}
