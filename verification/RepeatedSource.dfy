/**
 * One run from the empty broker: a call gets the promise of a in two arguments. When a completes, its node d is queued
 * twice, two workers get it, both fail, at different times, and the next tick of the drain loop waits for itself.
 */
module RepeatedSource {
  import opened Basics
  import opened Retry
  import opened Inspection
  import opened Model
  import opened Safety
  import opened SafetyOfSteps
  import opened Placement
  import opened Runs
  import opened Discipline
  import opened Schedules
  import opened Histories
  import opened Scenarios
  import opened Duplicates

  const RESULT := Raw("1")
  const READY := Job("d", 0)

  function Completed(node: Node): Node {
    node.(completed := true, resolvedValue := RESULT)
  }

  function Emptied(worker: Worker): Worker {
    worker.(allowedQueues := {"q"}, claimedWork := [])
  }

  /** The nodes while a is held, and after it is answered with d as given. */
  function Before(): map<Id, Node> {
    map["a" := HeldBy(Fresh(FIRST, 0, ["d", "d"], None), "w"), "d" := Fresh(TWICE, 1, [], Some(POLICY))]
  }

  function With(d: Node): map<Id, Node> {
    map["a" := Completed(Fresh(FIRST, 0, ["d", "d"], None)), "d" := d]
  }

  function Untouched(): Node {
    Fresh(TWICE, 1, [], Some(POLICY))
  }

  function SourceHeld(): State {
    Scene(Before(), ["a", "d"], multiset{}, multiset{}, Claimed(IDLE, "a"), IDLE)
  }

  lemma ClaimSource()
    ensures Free(TwiceScene(), "w") && LeastJob(TwiceScene(), "w", "q", Job("a", 0))
    ensures Claim(TwiceScene(), "w", "q", Job("a", 0), 0) == SourceHeld()
  {
    hide Claim, LeastJob;
    SceneClaim(TwiceNodes(), ["a", "d"], multiset{Job("a", 0)}, multiset{}, IDLE, IDLE, Job("a", 0));
    var none: multiset<Job> := multiset{};
    assert multiset{Job("a", 0)} - multiset{Job("a", 0)} == none;
    assert TwiceNodes()["a" := HeldBy(TwiceNodes()["a"], "w")] == Before();
  }

  function Later(d: Node, ready: multiset<Job>, future: multiset<Job>, w: Worker, v: Worker): State {
    Scene(With(d), ["a", "d"], ready, future, w, v)
  }

  function Both(): State {
    Later(Untouched(), multiset{READY, READY}, multiset{}, Emptied(IDLE), IDLE)
  }

  lemma WithoutOnly(n: Id)
    ensures Without([n], n) == []
  {
    FilterOne(n, (m: Id) => m != n);
  }

  lemma SourceSettles()
    ensures ReleaseWorkerLock(MarkCompleted(SourceHeld(), "a", RESULT), "a")
         == Later(Untouched(), multiset{}, multiset{}, Emptied(IDLE), IDLE)
  {
    WithoutOnly("a");
    hide Without;
    var none: seq<Id> := [];
    assert none + ["a"] == ["a"];
    var c := ReleaseWorkerLock(MarkCompleted(SourceHeld(), "a", RESULT), "a");
    assert c.nodes == With(Untouched());
    assert "w" != "v" by { assert "w"[0] != "v"[0]; }
    assert c.workers == map["w" := Emptied(IDLE), "v" := IDLE];
    var t := Later(Untouched(), multiset{}, multiset{}, Emptied(IDLE), IDLE);
    assert c.nodes == t.nodes && c.workers == t.workers;
    assert c.queues == t.queues;
    assert c.future == t.future;
    assert c.created == t.created && c.instances == t.instances;
  }

  lemma Notify(b: State, ds: seq<Id>, d: Id, now: int)
    requires AllKnown(b) && d in b.nodes && forall x | x in ds :: x in b.nodes
    requires SourcesDone(NotifyAll(b, ds, now), d)
    ensures forall x | x in ds + [d] :: x in b.nodes
    ensures NotifyAll(b, ds + [d], now) == EnqueueNode(NotifyAll(b, ds, now), d, now)
  {
    assert (ds + [d])[..|ds|] == ds;
  }

  lemma WithFacts(d: Node)
    requires d.decl == TWICE
    ensures InOrders(With(d))
  {
  }

  lemma SourcesAreDone(d: Node, ready: multiset<Job>, future: multiset<Job>, w: Worker, v: Worker)
    requires d.decl == TWICE
    ensures SourcesDone(Later(d, ready, future, w, v), "d")
  {
  }

  lemma OncePushed(ready: multiset<Job>, w: Worker, v: Worker)
    ensures var b := Later(Untouched(), ready, multiset{}, w, v);
      && AllKnown(b) && SourcesDone(b, "d")
      && EnqueueNode(b, "d", 0) == Later(Untouched(), ready + multiset{READY}, multiset{}, w, v)
  {
    WithFacts(Untouched());
    SourcesAreDone(Untouched(), ready, multiset{}, w, v);
    SceneEnqueue(With(Untouched()), ["a", "d"], ready, multiset{}, w, v, "d", 0);
    hide EnqueueNode;
  }

  lemma SourceResolves()
    ensures AllKnown(SourceHeld()) && DestinationsKnown(SourceHeld()) && Free(SourceHeld(), "w")
    ensures ExecutionDidResolve(SourceHeld(), "a", RESULT, 0) == Both()
  {
    hide NotifyAll, ReleaseWorkerLock, MarkCompleted;
    SourceSettles();
    BothNotified();
  }

  lemma BothNotified()
    ensures var c := Later(Untouched(), multiset{}, multiset{}, Emptied(IDLE), IDLE);
      AllKnown(c) && "d" in c.nodes && NotifyAll(c, ["d", "d"], 0) == Both()
  {
    hide EnqueueNode, NotifyAll, SourcesDone;
    var c := Later(Untouched(), multiset{}, multiset{}, Emptied(IDLE), IDLE);
    assert NotifyAll(c, [], 0) == c by { NotifyNone(c, 0); }
    OncePushed(multiset{}, Emptied(IDLE), IDLE);
    OncePushed(multiset{READY}, Emptied(IDLE), IDLE);
    Notify(c, [], "d", 0);
    var none: seq<Id> := [];
    assert none + ["d"] == ["d"] && ["d"] + ["d"] == ["d", "d"];
    var empty: multiset<Job> := multiset{};
    assert empty + multiset{READY} == multiset{READY} && multiset{READY} + multiset{READY} == multiset{READY, READY};
    Notify(c, ["d"], "d", 0);
  }

  lemma NotifyNone(b: State, now: int)
    requires AllKnown(b)
    ensures NotifyAll(b, [], now) == b
  {
  }

  // ---------------------------------------------------------------- two claims, two failures

  function Held(w: Id): Node {
    HeldBy(Untouched(), w)
  }

  function OneHolds(): State {
    Later(Held("w"), multiset{READY}, multiset{}, Claimed(Emptied(IDLE), "d"), IDLE)
  }

  function TwoHold(): State {
    Later(Held("v"), multiset{}, multiset{}, Claimed(Emptied(IDLE), "d"), Claimed(IDLE, "d"))
  }

  lemma FirstClaim()
    ensures Free(Both(), "w") && LeastJob(Both(), "w", "q", READY) && Claim(Both(), "w", "q", READY, 0) == OneHolds()
  {
    hide Claim, LeastJob;
    SceneClaim(With(Untouched()), ["a", "d"], multiset{READY, READY}, multiset{}, Emptied(IDLE), IDLE, READY);
    assert multiset{READY, READY} - multiset{READY} == multiset{READY};
    assert With(Untouched())["d" := Held("w")] == With(Held("w"));
  }

  lemma SecondClaim()
    ensures Free(OneHolds(), "v") && LeastJob(OneHolds(), "v", "q", READY)
    ensures Claim(OneHolds(), "v", "q", READY, 0) == TwoHold()
  {
    hide Claim, LeastJob;
    SceneClaim(With(Held("w")), ["a", "d"], multiset{READY}, multiset{}, Claimed(Emptied(IDLE), "d"), IDLE, READY);
    var none: multiset<Job> := multiset{};
    assert multiset{READY} - multiset{READY} == none;
    assert With(Held("w"))["d" := Held("v")] == With(Held("v"));
  }

  /** d after a failure at that time, which its policy answers with a second's wait. */
  function TriedAgain(d: Node, now: int): Node
    requires d.policy.Some?
  {
    Unclaim(d).(failures := d.failures + ["t"], policy := Some(Advance(d.policy.value)), nextRetry := now + 1000)
  }

  lemma Backoff(d: Node, ready: multiset<Job>, future: multiset<Job>, w: Worker, v: Worker, now: int)
    requires d.decl == TWICE && d.policy.Some? && Wait(d.policy.value, 0.0) == 1000 && now >= 0
    ensures var b := Later(d, ready, future, w, v);
      && AllKnown(b)
      && BackoffNode(b, "d", 0.0, now)
         == Later(d.(policy := Some(Advance(d.policy.value)), nextRetry := now + 1000), ready,
                  future + multiset{Job("d", now + 1000)}, w, v)
  {
    hide Wait, Advance;
    WithFacts(d);
    var f := d.(policy := Some(Advance(d.policy.value)), nextRetry := now + 1000);
    assert With(d)["d" := f] == With(f);
  }

  lemma Fail(d: Node, ready: multiset<Job>, future: multiset<Job>, w: Worker, v: Worker, v': Worker, now: int)
    requires d.decl == TWICE && d.policy.Some? && Wait(d.policy.value, 0.0) == 1000 && now >= 0
    requires ReleaseWorkerLock(Later(d, ready, future, w, v), "d") == Later(Unclaim(d), ready, future, w, v')
    ensures var b := Later(d, ready, future, w, v);
      && AllKnown(b)
      && ExecutionDidFail(b, "d", "t", 0.0, now)
         == Later(TriedAgain(d, now), ready, future + multiset{Job("d", now + 1000)}, w, v')
  {
    hide Wait, Advance, ReleaseWorkerLock, BackoffNode;
    WithFacts(d);
    var f := Unclaim(d).(failures := d.failures + ["t"]);
    assert With(Unclaim(d))["d" := f] == With(f);
    Backoff(f, ready, future, w, v', now);
  }

  function OneFailed(): State {
    Later(TriedAgain(Untouched(), 0), multiset{}, multiset{Job("d", 1000)}, Claimed(Emptied(IDLE), "d"), Emptied(IDLE))
  }

  function TwoFailed(): State {
    Later(TriedAgain(TriedAgain(Untouched(), 0), 500), multiset{}, multiset{Job("d", 1000), Job("d", 1500)},
          Claimed(Emptied(IDLE), "d"), Emptied(IDLE))
  }

  /** The answer of w takes d away from v, who holds it by now. */
  lemma FirstFailure()
    ensures AllKnown(TwoHold()) && Free(TwoHold(), "w")
    ensures ExecutionDidFail(TwoHold(), "d", "t", 0.0, 0) == OneFailed()
  {
    hide ExecutionDidFail;
    var w, v := Claimed(Emptied(IDLE), "d"), Claimed(IDLE, "d");
    LockOfV(w, v);
    Fail(Held("v"), multiset{}, multiset{}, w, v, Emptied(IDLE), 0);
    var none: multiset<Job> := multiset{};
    assert none + multiset{Job("d", 1000)} == multiset{Job("d", 1000)};
  }

  lemma LockOfV(w: Worker, v: Worker)
    requires v == Claimed(IDLE, "d")
    ensures ReleaseWorkerLock(Later(Held("v"), multiset{}, multiset{}, w, v), "d")
         == Later(Unclaim(Held("v")), multiset{}, multiset{}, w, Emptied(IDLE))
  {
    WithoutOnly("d");
    hide Without;
    var none: seq<Id> := [];
    assert none + ["d"] == ["d"];
    var c := ReleaseWorkerLock(Later(Held("v"), multiset{}, multiset{}, w, v), "d");
    assert "w" != "v" by { assert "w"[0] != "v"[0]; }
    assert c.nodes == With(Unclaim(Held("v")));
    assert c.workers == map["w" := w, "v" := Emptied(IDLE)];
  }

  lemma SecondFailure()
    ensures AllKnown(OneFailed()) && Free(OneFailed(), "v")
    ensures ExecutionDidFail(OneFailed(), "d", "t", 0.0, 500) == TwoFailed()
  {
    hide ExecutionDidFail;
    var d, w, v := TriedAgain(Untouched(), 0), Claimed(Emptied(IDLE), "d"), Emptied(IDLE);
    var c := ReleaseWorkerLock(Later(d, multiset{}, multiset{Job("d", 1000)}, w, v), "d");
    assert c.nodes == With(Unclaim(d));
    Fail(d, multiset{}, multiset{Job("d", 1000)}, w, v, v, 500);
    assert multiset{Job("d", 1000)} + multiset{Job("d", 1500)} == multiset{Job("d", 1000), Job("d", 1500)};
  }

  // ---------------------------------------------------------------- the run

  lemma Go(es: seq<Event>, s: System, e: Event) returns (fs: seq<Event>, t: System)
    requires SoundSystem(s) && Ends(es, s) && Enabled(s, e)
    ensures fs == es + [e] && t == Next(s, e) && SoundSystem(t) && Ends(fs, t)
  {
    hide SoundSystem, Enabled, Next, Ends;
    EndsFurther(es, s, e);
    fs, t := es + [e], Next(s, e);
  }

  ghost predicate Sent(s: System, w: Id, m: NodeMessage, n: Id) {
    (w, m) in s.sent && m.identifier == n
  }

  lemma TwiceIsInOneInstance()
    ensures MayInsert(FirstScene(), "d", TWICE)
    ensures forall x | x in TWICE.sources :: FirstScene().nodes[x].decl.instance == TWICE.instance
    ensures PolicyFor(Some(RETRY)) == Some(POLICY)
  {
    CreateTwice();
  }

  /** The run up to the answer for a. */
  lemma RunToAnswer() returns (es: seq<Event>, s: System, m: NodeMessage)
    ensures SoundSystem(s) && Ends(es, s) && At0(s, Both()) && Sent(s, "w", m, "a")
  {
    hide OnceSystem, SoundSystem, Enabled, Disciplined, Next, Leads, Ends, NewNode, FirstScene, TwiceScene, SourceHeld,
         Both, MayInsert, LeastJob, Claim, ExecutionDidResolve, AllKnown, DestinationsKnown;
    es, s := Start();
    assert Ends(es, s) by { LeadsEnds(es, s); }
    CreateTwice();
    TwiceIsInOneInstance();
    NodeStep(s, "d", TWICE, Some(RETRY));
    es, s := Go(es, s, Event(0, CreateNode("d", TWICE, Some(RETRY))));
    ClaimSource();
    ClaimStep(s, "w", "q", Job("a", 0));
    var e := Event(0, GetWork("w", "q", Job("a", 0)));
    m :| m.identifier == "a" && ("w", m) in Next(s, e).sent;
    es, s := Go(es, s, e);
    SourceResolves();
    AnswerStep(s, "w", m, RESULT);
    es, s := Go(es, s, Event(0, SubmitWork("w", m, RESULT)));
  }

  lemma FailureMay(s: System, now: int, w: Id, m: NodeMessage)
    requires SoundSystem(s) && !s.stalled && s.clock <= now && Free(s.b, w) && (w, m) in s.sent
    ensures Enabled(s, Event(now, SubmitFailure(w, m, "t", 0.0))) && AllKnown(s.b) && Describes(s.b, m)
  {
    hide Describes, ExecutionDidFail;
    SystemFacts(s);
    SoundBasics(s.b);
    hide Sound, AllKnown;
  }

  lemma FailureStep(s: System, now: int, w: Id, m: NodeMessage)
    requires SoundSystem(s) && !s.stalled && s.clock <= now && Free(s.b, w) && (w, m) in s.sent
    ensures var e := Event(now, SubmitFailure(w, m, "t", 0.0));
      && Enabled(s, e) && AllKnown(s.b) && m.identifier in s.b.nodes
      && Next(s, e).b == ExecutionDidFail(s.b, m.identifier, "t", 0.0, now)
      && !Next(s, e).stalled && Next(s, e).clock == now && Next(s, e).sent == s.sent
  {
    hide SoundSystem, Enabled, ExecutionDidFail, Earliest, Sound, AllKnown;
    FailureMay(s, now, w, m);
    hide SourcesDone;
  }

  /** The run up to the first failure of d; both workers have got d. */
  lemma RunToFailure() returns (es: seq<Event>, s: System, m: NodeMessage, n: NodeMessage)
    ensures SoundSystem(s) && Ends(es, s) && At0(s, OneFailed()) && Sent(s, "w", m, "a") && Sent(s, "v", n, "d")
  {
    hide SoundSystem, Enabled, Disciplined, Next, Ends, OneHolds, TwoHold, Both, OneFailed, LeastJob, Claim,
         ExecutionDidFail, AllKnown;
    es, s, m := RunToAnswer();
    FirstClaim();
    ClaimStep(s, "w", "q", READY);
    var e := Event(0, GetWork("w", "q", READY));
    var k: NodeMessage :| k.identifier == "d" && ("w", k) in Next(s, e).sent;
    es, s := Go(es, s, e);
    SecondClaim();
    ClaimStep(s, "v", "q", READY);
    e := Event(0, GetWork("v", "q", READY));
    n :| n.identifier == "d" && ("v", n) in Next(s, e).sent;
    es, s := Go(es, s, e);
    FirstFailure();
    FailureStep(s, 0, "w", k);
    es, s := Go(es, s, Event(0, SubmitFailure("w", k, "t", 0.0)));
  }

  // ---------------------------------------------------------------- what it shows

  lemma BothReady()
    ensures AllKnown(Both()) && "d" in Both().nodes && ReadyCount(Both(), "d") == 2
  {
    WithFacts(Untouched());
  }

  /**
   * A run from the empty broker: an instance, a node a, a node d whose sources are a and a, a worker that claims a and
   * answers: d is then twice in its queue.
   */
  lemma SameSourceTwiceIsQueuedTwice() returns (es: seq<Event>, s: System)
    ensures Ends(es, s) && AllKnown(s.b) && "d" in s.b.nodes && ReadyCount(s.b, "d") == 2
  {
    hide SoundSystem, Ends, Both, AllKnown, ReadyCount;
    var m;
    es, s, m := RunToAnswer();
    BothReady();
  }

  lemma FailedFacts()
    ensures var b := OneFailed();
      && AllKnown(b) && "a" in b.nodes && "d" in b.nodes && b.nodes["a"].completed && SourcesDone(b, "d")
      && Free(b, "w") && ReadyCount(b, "d") == 0 && b.future == multiset{Job("d", 1000)} && MustWait(b.nodes["d"], 0)
      && b.nodes["d"].nextRetry == 1000 && b.nodes["a"].destinations == ["d", "d"]
  {
    WithFacts(TriedAgain(Untouched(), 0));
    SourcesAreDone(TriedAgain(Untouched(), 0), multiset{}, OneFailed().future, Claimed(Emptied(IDLE), "d"),
        Emptied(IDLE));
  }

  /**
   * A run in which a is answered a second time while d, its destination, waits out a retry: no queue changes, and d is
   * two times more, once per mention of a, in the future heap.
   */
  lemma SecondAnswerDuringBackoff() returns (es: seq<Event>, s: System, m: NodeMessage)
    ensures SoundSystem(s) && Ends(es, s) && Enabled(s, Event(0, SubmitWork("w", m, RESULT)))
    ensures m.identifier == "a" && s.b.future == multiset{Job("d", 1000)}
    ensures var r := Next(s, Event(0, SubmitWork("w", m, RESULT))).b;
      AllKnown(r) && "d" in r.nodes && ReadyCount(r, "d") == 0 && r.future[Job("d", 1000)] == 3
  {
    hide SoundSystem, Enabled, Next, Ends, OneFailed, AllKnown, ReadyCount, ExecutionDidResolve, SourcesDone, SameJobs;
    var n;
    es, s, m, n := RunToFailure();
    FailedFacts();
    AnswerStep(s, "w", m, RESULT);
    SecondAnswerQueuesAgain(s.b, "a", RESULT, 0, "d");
    assert Count(["d", "d"], "d") == 2 by { assert ["d", "d"][..1] == ["d"] && ["d"][..0] == []; }
  }

  lemma TwoFailedFacts()
    ensures var b := TwoFailed();
      && AllKnown(b) && "d" in b.nodes && b.nodes["d"].nextRetry == 1500 && b.nodes["d"].nextRetry > -1
      && Least(b.future, Job("d", 1000)) && Overtaken(b, Job("d", 1000), 1200)
  {
    WithFacts(TriedAgain(TriedAgain(Untouched(), 0), 500));
  }

  lemma StallStep(s: System, now: int, job: Job)
    requires SoundSystem(s) && !s.stalled && s.clock <= now && Reenters(s.b, job, now)
    ensures Enabled(s, Event(now, Stall([], job))) && Next(s, Event(now, Stall([], job))).stalled
  {
    hide Sound, Describes, Reenters;
    SystemFacts(s);
    SoundBasics(s.b);
  }

  /**
   * The run goes on: the other worker fails d as well, at 500, so that d has jobs for 1000 and 1500 and is to wait
   * until 1500. The tick at 1200 pops the first and waits for its own lock.
   */
  lemma TickWaitsForItself() returns (es: seq<Event>, s: System)
    ensures Ends(es, s) && s.stalled
  {
    hide SoundSystem, Enabled, Next, Ends, OneFailed, TwoFailed, AllKnown, ExecutionDidFail, Least;
    var m, n;
    es, s, m, n := RunToFailure();
    SecondFailure();
    FailureStep(s, 500, "v", n);
    es, s := Go(es, s, Event(500, SubmitFailure("v", n, "t", 0.0)));
    TwoFailedFacts();
    StallStep(s, 1200, Job("d", 1000));
    es, s := Go(es, s, Event(1200, Stall([], Job("d", 1000))));
  }
}
