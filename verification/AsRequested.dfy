/**
 * What a caller gets, in terms of what callers sent: who is fenced, what is handed out and to whom, what messages say,
 * and how long a failed node waits. All in any run, repeated sources and answers included.
 */
module AsRequested {
  import opened Basics
  import opened Retry
  import opened Inspection
  import opened Model
  import opened Safety
  import opened Runs
  import opened Schedules
  import opened Priorities
  import opened LateFailures
  import opened Ledger
  import opened LedgerSteps
  import opened LedgerHolds

  // ---------------------------------------------------------------- fences

  lemma WorkerRecord(es: seq<Event>, s: System, w: Id)
    requires Ends(es, s) && w in s.b.workers
    ensures WorkerFollows(es, w, s.b.workers[w])
  {
    hide Ends, WorkerFollows, InstancesFollow, NodesFollow;
    StateFollowsLedger(es, s);
  }

  lemma NodeRecord(es: seq<Event>, s: System, n: Id)
    requires Ends(es, s) && n in s.b.nodes
    ensures NodeFollows(es, n, s.b.nodes[n])
  {
    hide Ends, NodeFollows, InstancesFollow, WorkersFollow;
    StateFollowsLedger(es, s);
  }

  /**
   * A tick at time t fences a worker that is not fenced yet if and only if more than sixty whole seconds lie between
   * the second of its last Ping, or of its registration if it has not pinged, and the second of t.
   */
  lemma TickFencesTheOverdue(es: seq<Event>, s: System, e: Event, w: Id)
    requires Ends(es, s) && SoundSystem(s) && Enabled(s, e) && e.action.CollectWorkers?
    requires w in s.b.workers && !s.b.workers[w].invalidated
    ensures w in Next(s, e).b.workers && LastSeen(es, w).Some?
    ensures Next(s, e).b.workers[w].invalidated <==> e.now / 1000 - LastSeen(es, w).value / 1000 > 60
  {
    hide SoundSystem, Enabled, Next, Ends, NodesAfter, SameCards, Follows;
    WorkerRecord(es, s, w);
    StateFollowsLedger(es, s);
    EventSteps(s, e);
    assert Judged(s.b.workers[w], Next(s, e).b.workers[w], true, e.now);
  }

  /** A worker is fenced if and only if some tick has found it overdue. */
  lemma FencedIffOverdue(es: seq<Event>, s: System, w: Id)
    requires Ends(es, s) && w in s.b.workers
    ensures s.b.workers[w].invalidated <==>
      exists k :: 0 <= k < |es| && es[k].action.CollectWorkers? && OverdueAt(es[..k], w, es[k].now)
  {
    hide Ends, OverdueAt;
    WorkerRecord(es, s, w);
    FencedIffTick(es, w);
  }

  lemma {:induction false} FencedIffTick(es: seq<Event>, w: Id)
    ensures Fenced(es, w) <==>
      exists k :: 0 <= k < |es| && es[k].action.CollectWorkers? && OverdueAt(es[..k], w, es[k].now)
  {
    hide OverdueAt;
    if es != [] {
      var init := es[..|es| - 1];
      FencedIffTick(init, w);
      assert forall k | 0 <= k < |init| :: init[k] == es[k] && init[..k] == es[..k];
    }
  }

  // ---------------------------------------------------------------- results

  /** The k-th event is an answer for n by a worker that no tick had found overdue. */
  predicate AnswerAt(es: seq<Event>, k: nat, n: Id) {
    k < |es| && es[k].action.SubmitWork? && es[k].action.message.identifier == n
    && !Fenced(es[..k], es[k].action.worker)
  }

  ghost predicate LastAnswerAt(es: seq<Event>, k: nat, n: Id) {
    AnswerAt(es, k, n) && forall l | k < l < |es| :: !AnswerAt(es, l, n)
  }

  lemma AnswerBefore(es: seq<Event>, k: nat, n: Id)
    requires k + 1 < |es|
    ensures AnswerAt(es[..|es| - 1], k, n) == AnswerAt(es, k, n) && es[..|es| - 1][k] == es[k]
  {
    assert es[..|es| - 1][..k] == es[..k];
  }

  lemma {:induction false} LastAnswerIsValue(es: seq<Event>, k: nat, n: Id)
    requires LastAnswerAt(es, k, n)
    ensures ValueOf(es, n) == Some(es[k].action.value)
  {
    if k + 1 < |es| {
      var init := es[..|es| - 1];
      assert !AnswerAt(es, |es| - 1, n);
      forall l: nat | k <= l < |init|
        ensures AnswerAt(init, l, n) == AnswerAt(es, l, n)
      {
        AnswerBefore(es, l, n);
      }
      AnswerBefore(es, k, n);
      LastAnswerIsValue(init, k, n);
    }
  }

  lemma {:induction false} AnswerIsValue(es: seq<Event>, n: Id)
    ensures ValueOf(es, n).Some? <==> exists k: nat :: AnswerAt(es, k, n)
  {
    if es != [] {
      var init, last := es[..|es| - 1], |es| - 1;
      AnswerIsValue(init, n);
      forall k: nat | k < last
        ensures AnswerAt(init, k, n) == AnswerAt(es, k, n)
      {
        AnswerBefore(es, k, n);
      }
      if AnswerAt(es, last, n) {
        LastAnswerIsValue(es, last, n);
      } else {
        assert ValueOf(es, n) == ValueOf(init, n);
        hide AnswerAt, Fenced;
        assert forall k: nat :: AnswerAt(es, k, n) ==> k < last by { OnlyWithin(es, n); }
        assert forall k: nat :: AnswerAt(init, k, n) ==> k < last by { OnlyWithin(init, n); }
      }
    }
  }

  lemma OnlyWithin(es: seq<Event>, n: Id)
    ensures forall k: nat | AnswerAt(es, k, n) :: k < |es|
  {
  }

  /**
   * A node is completed if and only if an answer for it was accepted, and then it holds the value of the last one;
   * otherwise it holds nothing.
   */
  lemma ResultIsLastAnswer(es: seq<Event>, s: System, n: Id)
    requires Ends(es, s) && n in s.b.nodes
    ensures s.b.nodes[n].completed <==> exists k: nat :: AnswerAt(es, k, n)
    ensures forall k: nat | LastAnswerAt(es, k, n) :: s.b.nodes[n].resolvedValue == es[k].action.value
    ensures !s.b.nodes[n].completed ==> s.b.nodes[n].resolvedValue == Raw("")
  {
    hide Ends, Fenced;
    NodeRecord(es, s, n);
    AnswerIsValue(es, n);
    forall k: nat | LastAnswerAt(es, k, n)
      ensures ValueOf(es, n) == Some(es[k].action.value)
    {
      LastAnswerIsValue(es, k, n);
    }
    hide PolicyFollows;
  }

  // ---------------------------------------------------------------- hand-outs

  /** A worker with these lists may take work from queue q. */
  predicate Admits(lists: Lists, q: string, taint: string) {
    && (lists.includeQueues == [] || q in lists.includeQueues) && q !in lists.excludeQueues
    && (taint == "" || taint in lists.queueTolerations)
  }

  lemma AdmitsIsMayUse(es: seq<Event>, b: State, w: Id, q: string)
    requires w in b.workers && WorkerFollows(es, w, b.workers[w]) && q in b.queues
    ensures ListsOf(es, w).Some?
    ensures MayUse(b, b.workers[w], q) <==> Admits(ListsOf(es, w).value, q, b.queues[q].taint)
  {
    hide Fenced;
  }

  lemma HandOutFacts(s: System, e: Event)
    requires SoundSystem(s) && Enabled(s, e) && e.action.GetWork?
    ensures var b, w, q, job := s.b, e.action.worker, e.action.queue, e.action.job;
      && JobsFit(b) && Coherent(b) && w in b.workers && LeastJob(b, w, q, job) && q in b.queues
      && job in b.queues[q].jobs && AllKnown(b)
  {
    SoundBasics(s.b);
    hide Describes;
  }

  lemma JobFacts(b: State, q: string, j: Job)
    requires AllKnown(b) && JobsFit(b) && q in b.queues && j in b.queues[q].jobs
    ensures j.node in b.nodes && b.nodes[j.node].decl.queueName == q
    ensures b.nodes[j.node].decl.instance in b.instances && j.priority == b.instances[b.nodes[j.node].decl.instance]
  {
  }

  /**
   * What a worker is handed was created for a queue that its own lists allow; and no node that lies in a queue which
   * those lists allow belongs to an instance created before. q, m: any queue and job; k, l: places in the order in
   * which instances were created.
   */
  lemma HandOutAsRequested(es: seq<Event>, s: System, e: Event, q: string, m: Job, k: nat, l: nat)
    requires Ends(es, s) && SoundSystem(s) && Enabled(s, e) && e.action.GetWork?
    ensures ListsOf(es, e.action.worker).Some? && CreationOf(es, e.action.job.node).Some?
    ensures var lists, decl := ListsOf(es, e.action.worker).value, CreationOf(es, e.action.job.node).value.decl;
      && decl.queueName in s.b.queues && Admits(lists, decl.queueName, s.b.queues[decl.queueName].taint)
      && (q in s.b.queues && Admits(lists, q, s.b.queues[q].taint) && m in s.b.queues[q].jobs
          && CreationOf(es, m.node).Some? && k < |InstancesOf(es)| && l < |InstancesOf(es)|
          && InstancesOf(es)[k] == decl.instance && InstancesOf(es)[l] == CreationOf(es, m.node).value.decl.instance
          ==> k <= l)
  {
    hide SoundSystem, Enabled, Ends, JobsFit, Coherent, EffectiveAllowed, MayUse, Admits, NodeFollows, AllKnown;
    var b, a := s.b, e.action;
    HandOutFacts(s, e);
    WorkerRecord(es, s, a.worker);
    NodeRecord(es, s, a.job.node) by { JobFacts(b, a.queue, a.job); }
    JobFacts(b, a.queue, a.job);
    CreationRecord(es, a.job.node, b.nodes[a.job.node]);
    CoherentIsCurrent(b, a.worker);
    AdmitsIsMayUse(es, b, a.worker, a.queue);
    if q in b.queues && m in b.queues[q].jobs {
      JobFacts(b, q, m);
      NodeRecord(es, s, m.node);
      CreationRecord(es, m.node, b.nodes[m.node]);
      AdmitsIsMayUse(es, b, a.worker, q);
    }
    StateFollowsLedger(es, s);
    hide WorkersFollow, NodesFollow, WorkerFollows;
  }

  lemma CreationRecord(es: seq<Event>, n: Id, node: Node)
    requires NodeFollows(es, n, node)
    ensures CreationOf(es, n).Some? && node.decl == CreationOf(es, n).value.decl
  {
  }

  // ---------------------------------------------------------------- messages

  /** The message that is sent for n says what its creator and the last accepted answers said. */
  ghost predicate MessageSays(es: seq<Event>, n: Id, m: NodeMessage) {
    && m.identifier == n && CreationOf(es, n).Some?
    && var decl := CreationOf(es, n).value.decl;
    && m.functionName == decl.functionName && m.functionHash == decl.functionHash && m.queueName == decl.queueName
    && m.taintName == decl.taintName && m.arguments == decl.arguments && m.instanceId == decl.instance
    && m.completed == ValueOf(es, n).Some?
    && m.resolvedValue == (if ValueOf(es, n).Some? then ValueOf(es, n).value else Raw(""))
    && |m.sources| == |decl.sources|
    && forall i | 0 <= i < |decl.sources| :: SourceSays(es, decl.sources[i], m.sources[i])
  }

  ghost predicate SourceSays(es: seq<Event>, n: Id, m: SourceMessage) {
    && m.identifier == n && m.completed == ValueOf(es, n).Some?
    && m.resolvedValue == if ValueOf(es, n).Some? then ValueOf(es, n).value else Raw("")
  }

  lemma SourceRecord(es: seq<Event>, n: Id, node: Node)
    requires NodeFollows(es, n, node)
    ensures SourceSays(es, n, SourceMessage(n, node.resolvedValue, node.completed))
  {
    hide PolicyFollows;
  }

  /** In any run, for any node: the message says what the requests said. */
  lemma MessageIsAsRequested(es: seq<Event>, s: System, n: Id)
    requires Ends(es, s) && n in s.b.nodes
    ensures SourcesKnown(s.b) && MessageSays(es, n, NodeToMessage(s.b, n))
  {
    hide Ends, NodeFollows, SourceSays, Sound, Named, Describes;
    EndsIsSound(es, s);
    SystemFacts(s);
    SoundBasics(s.b);
    NodeRecord(es, s, n);
    CreationRecord(es, n, s.b.nodes[n]);
    SourceRecord(es, n, s.b.nodes[n]);
    var decl := s.b.nodes[n].decl;
    forall i | 0 <= i < |decl.sources|
      ensures SourceSays(es, decl.sources[i], NodeToMessage(s.b, n).sources[i])
    {
      var x := decl.sources[i];
      assert x in decl.sources;
      NodeRecord(es, s, x);
      SourceRecord(es, x, s.b.nodes[x]);
    }
    assert SourceSays(es, n, SourceMessage(n, s.b.nodes[n].resolvedValue, s.b.nodes[n].completed));
    OwnSays(es, n, s.b.nodes[n]);
  }

  lemma OwnSays(es: seq<Event>, n: Id, node: Node)
    requires SourceSays(es, n, SourceMessage(n, node.resolvedValue, node.completed))
    ensures node.completed == ValueOf(es, n).Some?
    ensures node.resolvedValue == if ValueOf(es, n).Some? then ValueOf(es, n).value else Raw("")
  {
  }

  // ---------------------------------------------------------------- waits

  /** Rounding to the nearest integer. */
  ghost predicate Nearest(i: int, x: real) {
    i as real - 0.5 <= x < i as real + 0.5
  }

  /**
   * The wait in milliseconds that a retry message grants after so many failures: none without a message, an interval or
   * attempts left; the interval itself, in seconds; or base^failures seconds and the jitter, to the millisecond.
   */
  ghost predicate Grants(retry: Option<RetryMessage>, failures: nat, jitter: real, wait: Option<int>) {
    if retry.None? || failures >= retry.value.maxAttempts
       || (retry.value.staticInterval <= 0 && retry.value.exponentialBase <= 0) then wait == None
    else
      && wait.Some?
      && if retry.value.staticInterval > 0 then wait.value == 1000 * retry.value.staticInterval
         else Nearest(wait.value, (1000 * Pow(retry.value.exponentialBase, failures)) as real + jitter)
  }

  lemma PolicyGrants(policy: Option<Policy>, retry: Option<RetryMessage>, failures: nat, jitter: real)
    requires PolicyFollows(policy, retry, failures) && Jitter(jitter)
    ensures policy.Some? && Wait(policy.value, jitter) != -1 ==>
              Grants(retry, failures, jitter, Some(Wait(policy.value, jitter)))
    ensures policy.None? || Wait(policy.value, jitter) == -1 ==> Grants(retry, failures, jitter, None)
  {
    if policy.Some? {
      WaitGranted(policy.value, jitter);
    }
  }

  /**
   * An accepted failure of n changes no queue and puts one job on the future heap exactly if the retry message of n's
   * creation grants a wait, at the time of the failure plus that wait.
   */
  lemma DelayAsRequested(es: seq<Event>, s: System, e: Event) returns (wait: Option<int>)
    requires Ends(es, s) && SoundSystem(s) && Enabled(s, e) && e.action.SubmitFailure?
    requires !Fenced(es, e.action.worker)
    ensures var n := e.action.message.identifier;
      && n in s.b.nodes && n in Next(s, e).b.nodes && CreationOf(es, n).Some?
      && Grants(CreationOf(es, n).value.retry, |TracebacksOf(es, n)|, e.action.jitter, wait)
      && Next(s, e).b.queues == s.b.queues
      && Next(s, e).b.future == (if wait.Some? then s.b.future + multiset{Job(n, e.now + wait.value)} else s.b.future)
      && (wait.Some? ==> Next(s, e).b.nodes[n].nextRetry == e.now + wait.value)
  {
    hide SoundSystem, Enabled, Next, Ends, After, Grants, PolicyFollows, Wait, Advance, Describes, ClaimsWithout;
    FailureEvent(s, e);
    WorkerRecord(es, s, e.action.worker);
    FailureInAnyRun(es, s, e);
    var n := e.action.message.identifier;
    NodeRecord(es, s, n);
    var policy := s.b.nodes[n].policy;
    PolicyGrants(policy, CreationOf(es, n).value.retry, |TracebacksOf(es, n)|, e.action.jitter);
    wait := if policy.Some? && Wait(policy.value, e.action.jitter) != -1 then Some(Wait(policy.value, e.action.jitter))
            else None;
  }

  /** Asked for a static interval of s seconds, every failure with an attempt left delays the node by exactly that. */
  lemma StaticDelay(es: seq<Event>, s: System, e: Event)
    requires Ends(es, s) && SoundSystem(s) && Enabled(s, e) && e.action.SubmitFailure?
    requires !Fenced(es, e.action.worker)
    requires var creation := CreationOf(es, e.action.message.identifier);
      && creation.Some? && creation.value.retry.Some? && creation.value.retry.value.staticInterval > 0
      && |TracebacksOf(es, e.action.message.identifier)| < creation.value.retry.value.maxAttempts
    ensures var n := e.action.message.identifier;
      var due := e.now + 1000 * CreationOf(es, n).value.retry.value.staticInterval;
      && n in Next(s, e).b.nodes && Next(s, e).b.nodes[n].nextRetry == due
      && Next(s, e).b.future == s.b.future + multiset{Job(n, due)}
  {
    hide SoundSystem, Enabled, Next, Ends;
    var wait := DelayAsRequested(es, s, e);
  }
}
