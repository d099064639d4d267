/**
 * Reported failures, wherever the node is by then: held, queued, delayed, completed, or in the hands of another worker.
 * The server asks for none of this (broker/server.go:123-136), so a report may come at any time, and more than once.
 */
module LateFailures {
  import opened Basics
  import opened Retry
  import opened Inspection
  import opened Model
  import opened Safety
  import opened Placement
  import opened OnceTicks
  import opened Runs
  import opened Schedules
  import opened Duplicates

  /** The holder, if there is one, loses n; nobody else loses a claim. */
  function ClaimsWithout(b: State, n: Id): map<Id, Worker>
    requires n in b.nodes
  {
    var holder := b.nodes[n].dequeueWorker;
    if holder.Some? && holder.value in b.workers then
      var worker := b.workers[holder.value];
      b.workers[holder.value := worker.(claimedWork := Without(worker.claimedWork, n))]
    else b.workers
  }

  /** The time to which the failure puts off the node, if its policy grants a retry. */
  function PutOff(node: Node, jitter: real, now: int): int
    requires node.policy.Some?
  {
    now + Wait(node.policy.value, jitter)
  }

  /** A failure that has been accepted: no queue changes; the future heap gets one job more exactly for a retry. */
  ghost predicate Charged(b: State, r: State, n: Id, traceback: string, jitter: real, now: int)
    requires n in b.nodes
  {
    var node := b.nodes[n];
    && r == b.(nodes := r.nodes, workers := r.workers, future := r.future)
    && r.nodes == b.nodes[n := FailedNode(node, traceback, jitter, now)] && r.workers == ClaimsWithout(b, n)
    && r.future == if Retries(node, jitter) then b.future + multiset{Job(n, PutOff(node, jitter, now))} else b.future
  }

  /** Whatever the policy: a granted wait is a second at least. */
  lemma RetryIsAhead(node: Node, jitter: real, now: int)
    requires Retries(node, jitter) && Jitter(jitter) && now >= 0
    ensures PutOff(node, jitter, now) >= now + 1000
  {
    WaitGranted(node.policy.value, jitter);
  }

  lemma ReleaseIs(b: State, n: Id)
    requires n in b.nodes
    ensures ReleaseWorkerLock(b, n) == b.(nodes := b.nodes[n := Unclaim(b.nodes[n])], workers := ClaimsWithout(b, n))
  {
  }

  /** What backing off makes of the node. */
  function BackedOff(node: Node, jitter: real, now: int): Node {
    if node.policy.None? then node
    else if Wait(node.policy.value, jitter) == -1 then node.(policy := Some(Advance(node.policy.value)))
    else node.(policy := Some(Advance(node.policy.value)), nextRetry := PutOff(node, jitter, now))
  }

  lemma BackoffIs(b: State, n: Id, jitter: real, now: int)
    requires AllKnown(b) && n in b.nodes && Jitter(jitter) && now >= 0
    ensures var node := b.nodes[n];
      BackoffNode(b, n, jitter, now)
        == b.(nodes := b.nodes[n := BackedOff(node, jitter, now)],
              future := if Retries(node, jitter) then b.future + multiset{Job(n, PutOff(node, jitter, now))}
                        else b.future)
  {
    var node := b.nodes[n];
    if Retries(node, jitter) {
      RetryIsAhead(node, jitter, now);
    }
    hide Wait, Advance, Usable, MakeReady;
    assert node.policy.None? ==> b.nodes[n := node] == b.nodes;
  }

  lemma RecordIs(b: State, n: Id, traceback: string)
    requires n in b.nodes
    ensures var f := Unclaim(b.nodes[n]).(failures := b.nodes[n].failures + [traceback]);
      RecordFailure(ReleaseWorkerLock(b, n), n, traceback)
        == b.(nodes := b.nodes[n := f], workers := ClaimsWithout(b, n))
  {
    hide ReleaseWorkerLock, ClaimsWithout;
    ReleaseIs(b, n);
    assert b.nodes[n := Unclaim(b.nodes[n])].Keys == b.nodes.Keys;
  }

  lemma BackedOffIs(node: Node, traceback: string, jitter: real, now: int)
    ensures BackedOff(Unclaim(node).(failures := node.failures + [traceback]), jitter, now)
         == FailedNode(node, traceback, jitter, now)
  {
  }

  lemma StillKnown(b: State, n: Id, node: Node, workers: map<Id, Worker>)
    requires AllKnown(b) && n in b.nodes && node.decl == b.nodes[n].decl
    ensures AllKnown(b.(nodes := b.nodes[n := node], workers := workers))
  {
  }

  lemma RecordedIsCharged(b: State, c: State, f: Node, n: Id, traceback: string, jitter: real, now: int)
    requires AllKnown(c) && n in b.nodes && Jitter(jitter) && now >= 0
    requires f == Unclaim(b.nodes[n]).(failures := b.nodes[n].failures + [traceback])
    requires c == b.(nodes := b.nodes[n := f], workers := ClaimsWithout(b, n))
    ensures Charged(b, BackoffNode(c, n, jitter, now), n, traceback, jitter, now)
  {
    hide ClaimsWithout, Wait, Advance, BackoffNode, BackedOff, FailedNode, AllKnown, Jitter;
    BackoffIs(c, n, jitter, now);
    BackedOffIs(b.nodes[n], traceback, jitter, now);
  }

  /** The whole effect of a failure, on any node of any state. */
  lemma FailureIsCharged(b: State, n: Id, traceback: string, jitter: real, now: int)
    requires AllKnown(b) && n in b.nodes && Jitter(jitter) && now >= 0
    ensures Charged(b, ExecutionDidFail(b, n, traceback, jitter, now), n, traceback, jitter, now)
  {
    hide ReleaseWorkerLock, RecordFailure, ClaimsWithout, BackoffNode, Charged, AllKnown, Jitter;
    ReleaseIs(b, n);
    RecordIs(b, n, traceback);
    var f := Unclaim(b.nodes[n]).(failures := b.nodes[n].failures + [traceback]);
    var c := b.(nodes := b.nodes[n := f], workers := ClaimsWithout(b, n));
    StillKnown(b, n, f, ClaimsWithout(b, n));
    RecordedIsCharged(b, c, f, n, traceback, jitter, now);
  }

  // ---------------------------------------------------------------- what it costs

  /** The result of the node stays, its record is longer by one, and an attempt is used up exactly if one is left. */
  lemma FailureCosts(b: State, r: State, n: Id, traceback: string, jitter: real, now: int)
    requires n in b.nodes && Charged(b, r, n, traceback, jitter, now)
    ensures var node, f := b.nodes[n], r.nodes[n];
      && f.completed == node.completed && f.resolvedValue == node.resolvedValue && f.dequeueWorker.None?
      && f.failures == node.failures + [traceback] && f.policy.Some? == node.policy.Some?
      && (node.policy.Some? ==> var p := node.policy.value;
            f.policy.value == p.(currentAttempt := p.currentAttempt + One(p.currentAttempt < p.maxAttempts)))
      && forall m | m in b.nodes && m != n :: r.nodes[m] == b.nodes[m]
  {
  }

  lemma RetriesIff(node: Node, jitter: real)
    requires Jitter(jitter)
    ensures Retries(node, jitter) <==>
      && node.policy.Some? && Usable(node.policy.value)
      && node.policy.value.currentAttempt < node.policy.value.maxAttempts
  {
    if node.policy.Some? && Usable(node.policy.value) {
      WaitGranted(node.policy.value, jitter);
    }
  }

  /**
   * The report adds a job exactly if the policy has an attempt left: a node that is already queued, delayed or done is
   * then delayed once more. So it goes unnoticed by queues and future heap if and only if there is no such policy.
   */
  lemma FailureAddsJobIff(b: State, r: State, n: Id, traceback: string, jitter: real, now: int)
    requires AllKnown(b) && n in b.nodes && Charged(b, r, n, traceback, jitter, now) && Jitter(jitter)
    ensures var policy := b.nodes[n].policy;
      && AllKnown(r)
      && ((forall m | m in b.nodes :: SameJobs(b, r, m))
          <==> !(policy.Some? && Usable(policy.value) && policy.value.currentAttempt < policy.value.maxAttempts))
  {
    var node := b.nodes[n];
    RetriesIff(node, jitter);
    hide Wait, Usable, ReadyCount, ClaimsWithout;
    forall m | m in b.nodes
      ensures ReadyCount(r, m) == ReadyCount(b, m)
    {
      SameQueuesSameReady(b, r, m);
    }
    if Retries(node, jitter) {
      var job := Job(n, PutOff(node, jitter, now));
      assert r.future[job] == b.future[job] + 1;
      assert !SameJobs(b, r, n);
    }
  }

  /**
   * A late report puts off a node that may already have jobs in the future heap: exactly those become overtaken, from
   * their own time until the new one, and a tick in between stalls.
   */
  lemma FailureOvertakes(b: State, r: State, n: Id, traceback: string, jitter: real, now: int, j: Job, later: int)
    requires n in b.nodes && Charged(b, r, n, traceback, jitter, now) && Jitter(jitter) && now >= 0
    ensures Overtaken(r, j, later) <==>
      if j.node == n && Retries(b.nodes[n], jitter)
      then j in b.future && j.priority <= later < PutOff(b.nodes[n], jitter, now)
      else Overtaken(b, j, later)
  {
    var node := b.nodes[n];
    if Retries(node, jitter) {
      RetryIsAhead(node, jitter, now);
    }
    hide Wait, Advance, Usable, ClaimsWithout;
  }

  // ---------------------------------------------------------------- in any run

  lemma {:induction false} ClockGrows(s: System, es: seq<Event>)
    requires SoundSystem(s) && Run(s, es)
    ensures Exec(s, es).clock >= s.clock
    decreases |es|
  {
    hide SoundSystem, Enabled, Next;
    if es != [] {
      NextKeepsSound(s, es[0]);
      ClockSteps(s, es[0]);
      ClockGrows(Next(s, es[0]), es[1..]);
    }
  }

  lemma ClockSteps(s: System, e: Event)
    requires SoundSystem(s) && Enabled(s, e)
    ensures s.clock <= Next(s, e).clock
  {
    hide SoundSystem, After, Sound;
  }

  lemma FailureEvent(s: System, e: Event)
    requires SoundSystem(s) && Enabled(s, e) && e.action.SubmitFailure?
    ensures s.clock <= e.now && Jitter(e.action.jitter) && AllKnown(s.b) && e.action.worker in s.b.workers
    ensures Describes(s.b, e.action.message) && e.action.message.identifier in s.b.nodes
    ensures After(s, e) == Model.SubmitFailure(s.b, e.action.worker, e.action.message.identifier, e.action.traceback,
                                               e.action.jitter, e.now)
  {
    hide ExecutionDidFail;
    SoundBasics(s.b);
    hide Sound;
  }

  /** In every run, disciplined or not, that is what an accepted report does. */
  lemma FailureInAnyRun(es: seq<Event>, s: System, e: Event)
    requires Ends(es, s) && SoundSystem(s) && Enabled(s, e) && e.action.SubmitFailure?
    requires e.action.worker in s.b.workers && !s.b.workers[e.action.worker].invalidated
    ensures e.action.message.identifier in s.b.nodes
    ensures Charged(s.b, Next(s, e).b, e.action.message.identifier, e.action.traceback, e.action.jitter, e.now)
  {
    hide SoundSystem, Enabled, Run, Exec, After, Next, Charged, ExecutionDidFail, AllKnown, Describes;
    StartIsSound();
    ClockGrows(START, es);
    FailureEvent(s, e);
    NextIsAfter(s, e);
    FailureIsCharged(s.b, e.action.message.identifier, e.action.traceback, e.action.jitter, e.now);
  }
}
