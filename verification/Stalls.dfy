/**
 * The lock of the future heap. A tick of the drain loop holds it, and a node that has to wait again would be pushed on
 * that heap: the loop then waits for itself. When that happens, exactly.
 */
module Stalls {
  import opened Basics
  import opened Retry
  import opened Inspection
  import opened Model
  import opened Safety
  import opened SafetyOfSteps
  import opened OnceTicks
  import opened Runs
  import opened Draining
  import opened Schedules

  lemma SomeLeast(jobs: multiset<Job>) returns (job: Job)
    requires jobs != multiset{}
    ensures Least(jobs, job)
  {
    job :| job in jobs;
    var some, rest := job, jobs - multiset{job};
    assert forall j | j in jobs :: j == some || j in rest;
    if rest != multiset{} {
      var other := SomeLeast(rest);
      if other.priority < job.priority {
        job := other;
      }
    }
  }

  /** The loop from the rounds made so far to its end: nothing is due any more, or the popped node has to wait. */
  lemma TickEnds(b: State, jobs: seq<Job>, now: int) returns (all: seq<Job>, stalled: bool, job: Job)
    requires Sound(b) && AllKnown(b) && (forall j | j in jobs :: j.node in b.nodes) && DrainRounds(b, jobs, now)
    ensures (forall j | j in all :: j.node in b.nodes) && DrainRounds(b, all, now)
    ensures if stalled then Reenters(DrainAll(b, all, now), job, now) else NothingDue(DrainAll(b, all, now), now)
    decreases |DrainAll(b, jobs, now).future|
  {
    hide Sound, AllKnown, DrainAll, DrainRounds, DrainOne, MustWait;
    var c := DrainAll(b, jobs, now);
    all, stalled, job := jobs, false, Job("", 0);
    if !NothingDue(c, now) {
      job := SomeLeast(c.future);
      DrainAllKeepsSound(b, jobs, now);
      FutureIsDue(c, job);
      stalled := MustWait(c.nodes[job.node], now);
      if !stalled {
        NextRound(b, jobs, job, now);
        DrainOneIs(c, job, now);
        all, stalled, job := TickEnds(b, jobs + [job], now);
      }
    }
  }

  lemma NextRound(b: State, jobs: seq<Job>, job: Job, now: int)
    requires AllKnown(b) && (forall j | j in jobs :: j.node in b.nodes) && DrainRounds(b, jobs, now)
    requires var c := DrainAll(b, jobs, now);
      Least(c.future, job) && job.priority <= now && job.node in c.nodes && !MustWait(c.nodes[job.node], now)
    ensures forall j | j in jobs + [job] :: j.node in b.nodes
    ensures DrainRounds(b, jobs + [job], now)
    ensures DrainAll(b, jobs + [job], now) == DrainOne(DrainAll(b, jobs, now), job, now)
  {
    assert (jobs + [job])[..|jobs|] == jobs;
    hide DrainOne, MustWait, Least;
  }

  ghost predicate MayFinish(s: System, now: int)
    requires SoundSystem(s)
  {
    exists jobs :: Enabled(s, Event(now, QueueFuture(jobs)))
  }

  ghost predicate MayStall(s: System, now: int)
    requires SoundSystem(s)
  {
    exists jobs, job :: Enabled(s, Event(now, Stall(jobs, job)))
  }

  /**
   * In any run, a tick stops at its own lock if and only if, at the time of the tick, some due job has been overtaken
   * by a later retry time of its node; and it comes to its end if and only if there is no such job.
   */
  lemma TickStallsIffOvertaken(s: System, now: int)
    requires SoundSystem(s) && !s.stalled && s.clock <= now
    ensures MayStall(s, now) <==> exists j :: Overtaken(s.b, j, now)
    ensures MayFinish(s, now) <==> !exists j :: Overtaken(s.b, j, now)
  {
    hide Overtaken, Sound, DrainAll, DrainRounds, Reenters, NothingDue, Describes, AllKnown, Named;
    SystemFacts(s);
    SoundBasics(s.b);
    assert DrainAll(s.b, [], now) == s.b && DrainRounds(s.b, [], now) by { NoRounds(s.b, now); }
    var jobs, stalled, job := TickEnds(s.b, [], now);
    if stalled {
      assert Enabled(s, Event(now, Stall(jobs, job)));
    } else {
      assert Enabled(s, Event(now, QueueFuture(jobs)));
    }
    if MayFinish(s, now) {
      var js :| Enabled(s, Event(now, QueueFuture(js)));
      assert DrainRounds(s.b, js, now);
      forall j
        ensures !Overtaken(s.b, j, now)
      {
        TickMeetsOvertaken(s.b, js, now, j);
      }
    }
    if MayStall(s, now) {
      var js, j :| Enabled(s, Event(now, Stall(js, j)));
      assert DrainRounds(s.b, js, now);
      TickMeetsOvertaken(s.b, js, now, j);
    }
  }

  lemma NoRounds(b: State, now: int)
    requires AllKnown(b)
    ensures DrainAll(b, [], now) == b && DrainRounds(b, [], now)
  {
  }

  // ---------------------------------------------------------------- afterwards

  lemma NewNodeKeepsFuture(b: State, n: Id, decl: Decl, policy: Option<Policy>, now: int)
    requires MayInsert(b, n, decl)
    ensures NewNode(b, n, decl, policy, now).future == b.future
  {
  }

  lemma StalledStep(s: System, e: Event)
    requires SoundSystem(s) && Enabled(s, e) && s.stalled
    ensures Next(s, e).stalled && Next(s, e).b.future == s.b.future && !e.action.QueueFuture?
  {
    hide Describes, Sound, NewNode, ExecutionDidResolve, ExecutionDidFail, CollectAll, Claim, FillCache;
    SoundBasics(s.b);
    NextIsAfter(s, e);
    match e.action {
      case CreateNode(n, decl, retry) => NewNodeKeepsFuture(s.b, n, decl, PolicyFor(retry), e.now);
      case GetWork(w, q, job) => ClaimKeepsFuture(s, e);
      case GetNothing(w) => FillCacheKeepsFuture(s.b, w);
      case _ =>
    }
  }

  lemma ClaimKeepsFuture(s: System, e: Event)
    requires SoundSystem(s) && Enabled(s, e) && e.action.GetWork?
    ensures After(s, e).future == s.b.future
  {
    hide Describes, Sound;
  }

  lemma FillCacheKeepsFuture(b: State, w: Id)
    requires w in b.workers
    ensures FillCache(b, w).future == b.future
  {
  }

  /** Once the loop waits for itself no job ever leaves the future heap, or enters it, whatever else happens. */
  lemma {:induction false} StalledForever(s: System, es: seq<Event>)
    requires SoundSystem(s) && s.stalled && Run(s, es)
    ensures Exec(s, es).stalled && Exec(s, es).b.future == s.b.future
    ensures forall e | e in es :: !e.action.QueueFuture?
    decreases |es|
  {
    hide SoundSystem, Enabled, Next;
    if es != [] {
      StalledStep(s, es[0]);
      NextKeepsSound(s, es[0]);
      StalledForever(Next(s, es[0]), es[1..]);
    }
  }
}
