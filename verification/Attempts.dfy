/** Attempts over runs: a node's failures are the failures its workers reported, and its policy forgives so many. */
module Attempts {
  import opened Basics
  import opened Retry
  import opened Inspection
  import opened Model
  import opened Safety
  import opened SafetyOfSteps
  import opened Placement
  import opened Once
  import opened OnceSteps
  import opened Runs
  import opened Discipline
  import opened Leases
  import opened Collection
  import opened Draining
  import opened Results
  import opened Histories

  // ---------------------------------------------------------------- only accepted failures count

  ghost function FailureCount(b: State, n: Id): nat {
    if n in b.nodes then |b.nodes[n].failures| else 0
  }

  ghost predicate SameFailures(b: State, c: State) {
    forall n :: FailureCount(c, n) == FailureCount(b, n)
  }

  lemma PlainFailures(s: System, e: Event)
    requires OnceSystem(s) && Enabled(s, e)
    requires e.action.CreateWorker? || e.action.CreateInstance? || e.action.Ping? || e.action.GetNothing?
    ensures SameFailures(s.b, After(s, e))
  {
    hide OnceSystem, SoundSystem, Sound, Describes, NothingFor, EffectiveAllowed;
    OnceFacts(s);
  }

  lemma InsertFailures(b: State, n: Id, decl: Decl, policy: Option<Policy>)
    requires MayInsert(b, n, decl)
    ensures SameFailures(b, InsertNode(b, n, decl, policy))
  {
    hide AddBackLinks;
  }

  lemma CreateNodeFailures(s: System, e: Event)
    requires OnceSystem(s) && Enabled(s, e) && e.action.CreateNode?
    ensures SameFailures(s.b, After(s, e))
  {
    hide OnceSystem, SoundSystem, Sound, Describes, InsertNode, EnqueueNode, SourcesDone;
    OnceFacts(s);
    var n, decl, policy := e.action.node, e.action.decl, PolicyFor(e.action.retry);
    InsertFailures(s.b, n, decl, policy);
    EnqueueKeepsNodes(InsertNode(s.b, n, decl, policy), n, e.now);
  }

  lemma GetWorkFailures(s: System, e: Event)
    requires OnceSystem(s) && Enabled(s, e) && e.action.GetWork?
    ensures SameFailures(s.b, After(s, e))
  {
    hide OnceSystem, SoundSystem, Sound, Describes, Claim, LeastJob;
    OnceFacts(s);
    var a := e.action;
    LeastJobIsQueued(s.b, a.worker, a.queue, a.job);
    ClaimNodes(s.b, a.worker, a.queue, a.job, e.now);
  }

  lemma AnswerFailures(s: System, e: Event)
    requires OnceSystem(s) && Enabled(s, e) && Disciplined(s, e) && e.action.SubmitWork?
    ensures SameFailures(s.b, After(s, e))
  {
    hide OnceSystem, SoundSystem, Sound, Describes, ExecutionDidResolve, Graph, OnceEach, AllKnown, JobsFit;
    OnceFacts(s);
    var w, n := e.action.worker, e.action.message.identifier;
    AnswerIsHeld(s, w, n);
    if !s.b.workers[w].invalidated {
      ResolvedNodes(s.b, w, n, e.action.value, e.now);
    }
  }

  lemma TickFailures(s: System, e: Event)
    requires OnceSystem(s) && Enabled(s, e)
    requires e.action.CollectWorkers? || e.action.QueueFuture?
    ensures SameFailures(s.b, After(s, e))
  {
    hide OnceSystem, SoundSystem, Sound, Describes, OnceEach, AllKnown, JobsFit, CollectAll, DrainAll, DrainRounds,
      NothingDue, ClaimsKnown, Graph;
    OnceFacts(s);
    if e.action.CollectWorkers? {
      CollectionIsExact(s.b, e.action.order, e.now);
    } else {
      DrainNodes(s.b, e.action.jobs, e.now);
    }
  }

  lemma FailureFailures(s: System, e: Event, n: Id)
    requires OnceSystem(s) && Enabled(s, e) && Disciplined(s, e) && e.action.SubmitFailure?
    ensures FailureCount(After(s, e), n) == FailureCount(s.b, n) + One(FailsNow(s, e, n))
  {
    hide OnceSystem, SoundSystem, Sound, Describes, Enabled, After, Disciplined;
    OnceFacts(s);
    AnswersKnown(s, e);
    if s.b.workers[e.action.worker].invalidated {
      FencedAnswerChangesNothing(s, e);
    } else {
      FailureEffect(s, e);
    }
  }

  lemma EventFailures(s: System, e: Event, n: Id)
    requires OnceSystem(s) && Enabled(s, e) && Disciplined(s, e)
    ensures FailureCount(Next(s, e).b, n) == FailureCount(s.b, n) + One(FailsNow(s, e, n))
  {
    hide OnceSystem, SoundSystem, Sound, Enabled, Disciplined, After, Next, FailureCount;
    OnceFacts(s);
    NextIsAfter(s, e);
    NeverStalls(s, e);
    match e.action {
      case CreateNode(_, _, _) => CreateNodeFailures(s, e);
      case GetWork(_, _, _) => GetWorkFailures(s, e);
      case SubmitWork(_, _, _) => AnswerFailures(s, e);
      case SubmitFailure(_, _, _, _) => FailureFailures(s, e, n);
      case CollectWorkers(_) => TickFailures(s, e);
      case QueueFuture(_) => TickFailures(s, e);
      case _ => PlainFailures(s, e);
    }
  }

  // ---------------------------------------------------------------- attempts over runs

  /** How many failures of n the broker accepted in the first k events. */
  ghost function Reported(es: seq<Event>, k: nat, n: Id): nat
    requires Legal(es) && k <= |es|
  {
    if k == 0 then 0 else Reported(es, k - 1, n) + One(FailsNow(At(es, k - 1), es[k - 1], n))
  }

  /** A node's failures are the accepted reports: nothing else adds one, no collection of its worker either. */
  lemma {:induction false} FailuresAreReports(es: seq<Event>, k: nat, n: Id)
    requires Legal(es) && k <= |es|
    ensures FailureCount(At(es, k).b, n) == Reported(es, k, n)
  {
    hide OnceSystem, SoundSystem, Enabled, Disciplined, Next, Legal, At, FailsNow;
    if k == 0 {
      Beginning(es);
    } else {
      FailuresAreReports(es, k - 1, n);
      Moment(es, k - 1);
      EventFailures(At(es, k - 1), es[k - 1], n);
    }
  }

  lemma BudgetIsKept(b: State, n: Id)
    requires AllKnown(b) && OnceEach(b) && n in b.nodes
    ensures var node := b.nodes[n];
      && |node.failures| <= Budget(node.policy) + 1
      && (|node.failures| == Budget(node.policy) + 1 <==> Exhausted(node))
      && (Exhausted(node) ==> !node.completed && node.dequeueWorker.None? && node.nextRetry == -1)
      && (node.policy.Some? ==>
            node.policy.value.currentAttempt == Min(|node.failures|, Max(node.policy.value.maxAttempts, 0)))
  {
  }

  /**
   * At every moment of every run: a policy forgives max(maxAttempts, 0) accepted failures, and the counter has counted
   * them; one more abandons the node for good. A node whose workers were collected has used up nothing by that.
   */
  lemma RetryBudget(es: seq<Event>, k: nat, n: Id)
    requires Legal(es) && k <= |es| && n in At(es, k).b.nodes
    ensures var node, reported := At(es, k).b.nodes[n], Reported(es, k, n);
      && |node.failures| == reported && reported <= Budget(node.policy) + 1
      && (Exhausted(node) <==> reported == Budget(node.policy) + 1)
      && (Exhausted(node) ==> !node.completed && node.dequeueWorker.None? && node.nextRetry == -1)
      && (node.policy.Some? ==>
            node.policy.value.currentAttempt == Min(reported, Max(node.policy.value.maxAttempts, 0)))
  {
    hide Legal, At, OnceSystem, SoundSystem, OnceEach, Reported, Exhausted, Graph, JobsFit;
    FailuresAreReports(es, k, n);
    AtIsOnce(es, k);
    OnceFacts(At(es, k));
    BudgetIsKept(At(es, k).b, n);
  }
}
