/** Retry spacing over runs: after a failure a node is not handed out again before its waiting time has passed. */
module Spacing {
  import opened Basics
  import opened Retry
  import opened Inspection
  import opened Model
  import opened Safety
  import opened Once
  import opened OnceSteps
  import opened OnceTicks
  import opened Runs
  import opened Discipline
  import opened Leases
  import opened Histories
  import opened Attempts
  import opened Schedules
  import opened Ledger
  import opened AsRequested

  lemma NotBeforeStays(s: System, e: Event, n: Id)
    requires OnceSystem(s) && Enabled(s, e) && Disciplined(s, e) && n in s.b.nodes && !FailsNow(s, e, n)
    ensures s.notBefore.Keys == s.b.nodes.Keys && n in Next(s, e).notBefore
    ensures Next(s, e).notBefore[n] == s.notBefore[n] && n in Next(s, e).b.nodes
  {
    hide OnceSystem, SoundSystem, Sound, OnceEach, Enabled, Disciplined, After, Next, AllKnown, Graph, JobsFit, Extends,
      SameResults, Earliest, Describes, RetryStep;
    OnceFacts(s);
    NextTimes(s, e);
    NextIsAfter(s, e);
    NextKeepsDomain(s, e);
    AfterKeeps(s, e);
    NodesStay(s.b, After(s, e), n);
    if e.action.SubmitFailure? {
      AnswersKnown(s, e);
      KnownMessage(s.b, e.action.message);
      NextFailureTimes(s, e);
    } else if e.action.CreateNode? {
      CreateNodeRetry(s, e);
    }
  }

  lemma NodesStay(b: State, c: State, n: Id)
    requires Kept(b, c) && n in b.nodes
    ensures n in c.nodes
  {
    hide Sound;
  }

  /** A failed node was held, so its time had passed; the new time is not before the failure. */
  lemma FailureRaises(s: System, e: Event, n: Id)
    requires OnceSystem(s) && Enabled(s, e) && Disciplined(s, e) && n in s.b.nodes && FailsNow(s, e, n)
    ensures n in s.notBefore && n in Next(s, e).notBefore && n in Next(s, e).b.nodes
    ensures Next(s, e).notBefore[n] >= s.notBefore[n]
  {
    hide OnceSystem, SoundSystem, Sound, OnceEach, Enabled, Disciplined, After, Next, AllKnown, Graph, JobsFit, Wait,
      Advance, Kept, SameResults, Failed, WithinBudget, Exhausted, Jitter;
    OnceFacts(s);
    EnabledFacts(s, e);
    TimesFact(s);
    FailureEffect(s, e);
    NextFailureTimes(s, e);
    AfterKeeps(s, e);
    NextIsAfter(s, e);
    NodesStay(s.b, After(s, e), n);
  }

  /** No event makes the earliest time of a node earlier. */
  lemma NotBeforeGrows(s: System, e: Event, n: Id)
    requires OnceSystem(s) && Enabled(s, e) && Disciplined(s, e) && n in s.b.nodes
    ensures n in s.notBefore && n in Next(s, e).notBefore && n in Next(s, e).b.nodes
    ensures Next(s, e).notBefore[n] >= s.notBefore[n]
  {
    hide OnceSystem, Enabled, Disciplined, Next, FailsNow;
    if FailsNow(s, e, n) {
      FailureRaises(s, e, n);
    } else {
      NotBeforeStays(s, e, n);
    }
  }

  lemma {:induction false} NotBeforeOverMoments(es: seq<Event>, i: nat, k: nat, n: Id)
    requires Legal(es) && i <= k <= |es| && n in At(es, i).b.nodes
    ensures n in At(es, i).notBefore && n in At(es, k).notBefore && n in At(es, k).b.nodes
    ensures At(es, k).notBefore[n] >= At(es, i).notBefore[n]
    decreases k
  {
    hide OnceSystem, SoundSystem, Enabled, Disciplined, Next, OnceEach, Graph, JobsFit, AllKnown, Legal, At;
    if i == k {
      AtIsOnce(es, i);
      OnceFacts(At(es, i));
    } else {
      NotBeforeOverMoments(es, i, k - 1, n);
      Moment(es, k - 1);
      NotBeforeGrows(At(es, k - 1), es[k - 1], n);
    }
  }

  lemma ClaimIsTimely(s: System, e: Event)
    requires OnceSystem(s) && Enabled(s, e) && e.action.GetWork?
    ensures e.action.job.node in s.notBefore && s.notBefore[e.action.job.node] <= e.now
  {
    var a := e.action;
    OnceFacts(s);
    EnabledFacts(s, e);
    TimesFact(s);
    LeastJobIsQueued(s.b, a.worker, a.queue, a.job);
    hide OnceSystem, SoundSystem, Sound, Enabled, JobsFit, Placed, FutureFits, Leased, Budgeted, Distinct, AllKnown,
         Graph, LeastJob;
    QueuedIsReady(s.b, a.queue, a.job);
    ReadyFacts(s.b, a.job.node);
  }

  /** In every run nothing is handed out before its time. */
  lemma ClaimAfterNotBefore(es: seq<Event>, k: nat)
    requires Legal(es) && k < |es| && es[k].action.GetWork?
    ensures var n := es[k].action.job.node; n in At(es, k).notBefore && At(es, k).notBefore[n] <= es[k].now
  {
    hide OnceSystem, SoundSystem, Enabled, Disciplined, Legal, At;
    Moment(es, k);
    ClaimIsTimely(At(es, k), es[k]);
  }

  lemma FailureSetsNotBefore(s: System, e: Event, n: Id)
    requires OnceSystem(s) && Enabled(s, e) && Disciplined(s, e) && FailsNow(s, e, n)
    requires n in s.b.nodes && Retries(s.b.nodes[n], e.action.jitter)
    ensures n in Next(s, e).notBefore && n in Next(s, e).b.nodes
    ensures Next(s, e).notBefore[n] == e.now + Wait(s.b.nodes[n].policy.value, e.action.jitter)
  {
    hide OnceSystem, SoundSystem, Sound, OnceEach, Enabled, Disciplined, After, Next, AllKnown, Graph, JobsFit, Extends,
      SameResults, Wait, Describes;
    OnceFacts(s);
    NextFailureTimes(s, e);
    AfterKeeps(s, e);
    NextIsAfter(s, e);
    NodesStay(s.b, After(s, e), n);
  }

  /** Event i of the run is an accepted failure of n after which its policy grants a wait of that many milliseconds. */
  ghost predicate BacksOff(es: seq<Event>, i: nat, n: Id, wait: int)
    requires Legal(es)
  {
    && i < |es| && FailsNow(At(es, i), es[i], n) && n in At(es, i).b.nodes
    && Retries(At(es, i).b.nodes[n], es[i].action.jitter)
    && wait == Wait(At(es, i).b.nodes[n].policy.value, es[i].action.jitter)
  }

  /**
   * Once n has failed at time t with a granted wait, it is not handed out before t plus that wait, whatever happens in
   * between, further hand-outs and failures of n included.
   */
  lemma BackoffSpacing(es: seq<Event>, i: nat, k: nat, n: Id, wait: int)
    requires Legal(es) && i < k < |es| && BacksOff(es, i, n, wait)
    requires es[k].action.GetWork? && es[k].action.job.node == n
    ensures es[k].now >= es[i].now + wait
  {
    hide OnceSystem, SoundSystem, Enabled, Disciplined, Next, FailsNow, Retries, Wait, Legal, At;
    Moment(es, i);
    FailureSetsNotBefore(At(es, i), es[i], n);
    NotBeforeOverMoments(es, i + 1, k, n);
    ClaimAfterNotBefore(es, k);
  }

  lemma WaitAfter(b: State, n: Id, jitter: real)
    requires AllKnown(b) && OnceEach(b) && n in b.nodes && Jitter(jitter)
    requires Retries(b.nodes[n], jitter) && b.nodes[n].policy.value.staticInterval <= 0
    ensures var base := b.nodes[n].policy.value.exponentialBase;
      && base >= 1
      && 1000 * Pow(base, |b.nodes[n].failures|) <= Wait(b.nodes[n].policy.value, jitter)
      && Wait(b.nodes[n].policy.value, jitter) <= 1000 * Pow(base, |b.nodes[n].failures|) + 1000
  {
  }

  /** The wait of an exponential policy is base^k seconds plus jitter, after k failures accepted before. */
  lemma KthWait(es: seq<Event>, i: nat, n: Id, wait: int)
    requires Legal(es) && BacksOff(es, i, n, wait) && At(es, i).b.nodes[n].policy.value.staticInterval <= 0
    ensures var base := At(es, i).b.nodes[n].policy.value.exponentialBase;
      base >= 1 && 1000 * Pow(base, Reported(es, i, n)) <= wait <= 1000 * Pow(base, Reported(es, i, n)) + 1000
  {
    hide OnceSystem, SoundSystem, Sound, Disciplined, Wait, Legal, At, Retries, Describes, OnceEach, Graph, JobsFit,
         Reported;
    Moment(es, i);
    OnceFacts(At(es, i));
    FailuresAreReports(es, i, n);
    WaitAfter(At(es, i).b, n, es[i].action.jitter);
  }

  lemma LegalEnds(es: seq<Event>, i: nat)
    requires Legal(es) && i <= |es|
    ensures Ends(es[..i], At(es, i))
  {
    StartIsOnce();
    StartIsSound();
    PrefixIsRun(START, es, i);
    hide OnceSystem, SoundSystem, DisciplinedRun, Run, Exec;
  }

  /** A granted wait is the one that the retry message of the node's creation asks for, to the millisecond. */
  lemma WaitAsRequested(es: seq<Event>, i: nat, n: Id, wait: int)
    requires Legal(es) && BacksOff(es, i, n, wait)
    ensures CreationOf(es[..i], n).Some?
    ensures Grants(CreationOf(es[..i], n).value.retry, |TracebacksOf(es[..i], n)|, es[i].action.jitter, Some(wait))
  {
    hide OnceSystem, SoundSystem, Sound, Disciplined, Wait, Legal, At, Describes, Ends, Grants, PolicyFollows;
    Moment(es, i);
    LegalEnds(es, i);
    NodeRecord(es[..i], At(es, i), n);
    PolicyGrants(At(es, i).b.nodes[n].policy, CreationOf(es[..i], n).value.retry, |TracebacksOf(es[..i], n)|,
        es[i].action.jitter);
  }

  /** A node created with a static interval of s seconds waits exactly s seconds after each failure that is forgiven. */
  lemma StaticWait(es: seq<Event>, i: nat, n: Id, wait: int)
    requires Legal(es) && BacksOff(es, i, n, wait)
    requires CreationOf(es[..i], n).Some? && CreationOf(es[..i], n).value.retry.Some?
    requires CreationOf(es[..i], n).value.retry.value.staticInterval > 0
    ensures wait == 1000 * CreationOf(es[..i], n).value.retry.value.staticInterval
  {
    hide OnceSystem, Legal, At, BacksOff;
    WaitAsRequested(es, i, n, wait);
  }

  /** How many failures a retry message forgives. */
  function Forgives(retry: Option<RetryMessage>): nat {
    if retry.None? || (retry.value.staticInterval <= 0 && retry.value.exponentialBase <= 0) then 0
    else if retry.value.maxAttempts <= 0 then 0 else retry.value.maxAttempts
  }

  lemma BudgetFollows(policy: Option<Policy>, retry: Option<RetryMessage>, failures: nat)
    requires PolicyFollows(policy, retry, failures)
    ensures Budget(policy) == Forgives(retry)
  {
  }

  /** A node is abandoned exactly by the failure after those that the message of its creation forgives. */
  lemma BudgetAsRequested(es: seq<Event>, k: nat, n: Id)
    requires Legal(es) && k <= |es| && n in At(es, k).b.nodes
    ensures CreationOf(es[..k], n).Some?
    ensures var forgiven, reported := Forgives(CreationOf(es[..k], n).value.retry), |TracebacksOf(es[..k], n)|;
      && reported <= forgiven + 1
      && (reported == forgiven + 1 <==> Exhausted(At(es, k).b.nodes[n]))
  {
    hide Legal, At, Ends, OnceSystem, Exhausted, Reported, PolicyFollows, Forgives;
    LegalEnds(es, k);
    NodeRecord(es[..k], At(es, k), n);
    RetryBudget(es, k, n);
    BudgetFollows(At(es, k).b.nodes[n].policy, CreationOf(es[..k], n).value.retry, |TracebacksOf(es[..k], n)|);
  }
}
