/** One tick of the future queue, exactly: which jobs move, in which order, and where their nodes end up. */
module Draining {
  import opened Inspection
  import opened Model
  import opened Placement
  import opened Once
  import opened OnceTicks

  ghost predicate Sorted(jobs: seq<Job>) {
    forall i, k | 0 <= i < k < |jobs| :: jobs[i].priority <= jobs[k].priority
  }

  /** No job of the future heap comes before one already popped. */
  ghost predicate AllLater(jobs: seq<Job>, rest: multiset<Job>) {
    forall i, j | 0 <= i < |jobs| && j in rest :: jobs[i].priority <= j.priority
  }

  /** The last round of a drain. */
  lemma LastRound(b: State, jobs: seq<Job>, now: int)
    requires AllKnown(b) && jobs != [] && forall j | j in jobs :: j.node in b.nodes
    requires DrainRounds(b, jobs, now)
    ensures var init, job := jobs[..|jobs| - 1], jobs[|jobs| - 1];
      var c := DrainAll(b, init, now);
      && jobs == init + [job] && DrainRounds(b, init, now) && Least(c.future, job) && job.priority <= now
      && job.node in c.nodes && !MustWait(c.nodes[job.node], now) && DrainAll(b, jobs, now) == DrainOne(c, job, now)
  {
    hide DrainOne, Least, MustWait, AllKnown;
  }

  // ---------------------------------------------------------------- when a tick can be finished

  lemma RoundKeepsOvertaken(b: State, job: Job, now: int, j: Job)
    requires AllKnown(b) && job.node in b.nodes && !MustWait(b.nodes[job.node], now)
    ensures Overtaken(DrainOne(b, job, now), j, now) <==> Overtaken(b, j, now)
  {
    DrainOneIs(b, job, now);
    hide DrainOne, SameWorkers;
  }

  /** Rounds neither make nor remove an overtaken job: it waits in the heap until the loop meets it. */
  lemma {:induction false} DrainKeepsOvertaken(b: State, jobs: seq<Job>, now: int, j: Job)
    requires AllKnown(b) && forall k | k in jobs :: k.node in b.nodes
    requires DrainRounds(b, jobs, now)
    ensures Overtaken(DrainAll(b, jobs, now), j, now) <==> Overtaken(b, j, now)
  {
    if jobs != [] {
      hide DrainOne, DrainAll, DrainRounds, Overtaken, AllKnown;
      var init, job := jobs[..|jobs| - 1], jobs[|jobs| - 1];
      LastRound(b, jobs, now);
      DrainKeepsOvertaken(b, init, now, j);
      RoundKeepsOvertaken(DrainAll(b, init, now), job, now, j);
    }
  }

  /** A finished tick met no overtaken job; a tick that stops at one met one that was overtaken from the beginning. */
  lemma TickMeetsOvertaken(b: State, jobs: seq<Job>, now: int, j: Job)
    requires AllKnown(b) && forall k | k in jobs :: k.node in b.nodes
    requires DrainRounds(b, jobs, now)
    ensures NothingDue(DrainAll(b, jobs, now), now) ==> !Overtaken(b, j, now)
    ensures Reenters(DrainAll(b, jobs, now), j, now) ==> Overtaken(b, j, now)
  {
    hide DrainAll, DrainRounds, AllKnown;
    DrainKeepsOvertaken(b, jobs, now, j);
  }

  // ---------------------------------------------------------------- ticks of disciplined runs

  /** Popped jobs and remaining jobs make up the original heap; what was popped was due and came out in order. */
  lemma {:induction false} DrainConserves(b: State, jobs: seq<Job>, now: int)
    requires AllKnown(b) && OnceEach(b) && forall j | j in jobs :: j.node in b.nodes
    requires DrainRounds(b, jobs, now)
    ensures var r := DrainAll(b, jobs, now);
      && b.future == r.future + multiset(jobs) && (forall j | j in jobs :: j.priority <= now)
      && Sorted(jobs) && AllLater(jobs, r.future)
  {
    hide OnceEach, AllKnown;
    if jobs != [] {
      hide DrainOne, DrainAll, DrainRounds;
      var init, job := jobs[..|jobs| - 1], jobs[|jobs| - 1];
      LastRound(b, jobs, now);
      DrainConserves(b, init, now);
      var c := DrainAll(b, init, now);
      DrainOneIs(c, job, now);
      hide SameWorkers, MustWait, Sorted, AllLater;
      PopStep(b.future, c.future, init, job);
    }
  }

  lemma PopStep(whole: multiset<Job>, rest: multiset<Job>, jobs: seq<Job>, job: Job)
    requires whole == rest + multiset(jobs) && Sorted(jobs) && AllLater(jobs, rest) && Least(rest, job)
    ensures whole == (rest - multiset{job}) + multiset(jobs + [job])
    ensures Sorted(jobs + [job]) && AllLater(jobs + [job], rest - multiset{job})
  {
  }

  /** A tick moves exactly the due jobs and leaves exactly the later ones. */
  lemma DrainMovesExactlyTheDue(b: State, jobs: seq<Job>, now: int, j: Job)
    requires AllKnown(b) && OnceEach(b) && forall k | k in jobs :: k.node in b.nodes
    requires DrainRounds(b, jobs, now) && NothingDue(DrainAll(b, jobs, now), now)
    ensures DrainAll(b, jobs, now).future[j] == if j.priority > now then b.future[j] else 0
    ensures multiset(jobs)[j] == if j.priority > now then 0 else b.future[j]
  {
    hide OnceEach, AllKnown, DrainAll, DrainRounds;
    DrainConserves(b, jobs, now);
    hide Sorted, AllLater;
    if j.priority > now {
      assert j !in jobs;
    } else {
      assert j !in DrainAll(b, jobs, now).future;
    }
  }

  /** The node's pending retry is due. */
  ghost predicate Ripe(node: Node, now: int) {
    -1 < node.nextRetry <= now
  }

  /** Moving one job clears the retry time of its node and queues it. */
  ghost predicate Moved(b: State, r: State, jobs: seq<Job>) {
    && r.nodes.Keys == b.nodes.Keys
    && forall n | n in b.nodes ::
         r.nodes[n] == if Job(n, b.nodes[n].nextRetry) in jobs then b.nodes[n].(nextRetry := -1) else b.nodes[n]
  }

  lemma {:induction false} DrainNodes(b: State, jobs: seq<Job>, now: int)
    requires AllKnown(b) && OnceEach(b) && forall j | j in jobs :: j.node in b.nodes
    requires DrainRounds(b, jobs, now)
    ensures Moved(b, DrainAll(b, jobs, now), jobs)
  {
    if jobs == [] {
      hide OnceEach, AllKnown;
    } else {
      hide OnceEach, AllKnown, DrainOne, Moved, DrainAll, DrainRounds;
      var init, job := jobs[..|jobs| - 1], jobs[|jobs| - 1];
      LastRound(b, jobs, now);
      DrainNodes(b, init, now);
      DrainConserves(b, init, now);
      var c := DrainAll(b, init, now);
      DrainOneIs(c, job, now);
      hide SameWorkers, MustWait, Sorted, AllLater;
      FuturePart(b);
      assert job in b.future;
      hide FutureFits;
      MovedStep(b, c, DrainOne(c, job, now), init, job);
    }
  }

  lemma FuturePart(b: State)
    requires AllKnown(b) && OnceEach(b)
    ensures FutureFits(b)
  {
  }

  lemma MovedStep(b: State, c: State, r: State, jobs: seq<Job>, job: Job)
    requires Moved(b, c, jobs) && FutureFits(b) && job in b.future && job.node in c.nodes
    requires r.nodes == c.nodes[job.node := c.nodes[job.node].(nextRetry := -1)]
    ensures Moved(b, r, jobs + [job])
  {
  }

  lemma RipeIsDrained(b: State, jobs: seq<Job>, now: int, n: Id)
    requires AllKnown(b) && OnceEach(b) && forall k | k in jobs :: k.node in b.nodes
    requires DrainRounds(b, jobs, now) && NothingDue(DrainAll(b, jobs, now), now) && n in b.nodes
    ensures Job(n, b.nodes[n].nextRetry) in jobs <==> Ripe(b.nodes[n], now)
    ensures multiset(jobs)[Job(n, b.nodes[n].nextRetry)] == One(Ripe(b.nodes[n], now))
  {
    hide AllKnown, DrainAll, DrainRounds;
    var j := Job(n, b.nodes[n].nextRetry);
    DrainMovesExactlyTheDue(b, jobs, now, j);
    hide NothingDue;
    assert j in jobs <==> multiset(jobs)[j] > 0;
    if j in b.future {
      DelayedFacts(b, j);
    }
    hide Leased, Budgeted, Distinct, Placed;
  }

  /** A tick clears the retry time of exactly the nodes whose time has come, and queues each of them once. */
  lemma DrainIsExact(b: State, jobs: seq<Job>, now: int, n: Id)
    requires AllKnown(b) && OnceEach(b) && forall k | k in jobs :: k.node in b.nodes
    requires DrainRounds(b, jobs, now) && NothingDue(DrainAll(b, jobs, now), now) && n in b.nodes
    ensures var r := DrainAll(b, jobs, now);
      && r.nodes[n] == (if Ripe(b.nodes[n], now) then b.nodes[n].(nextRetry := -1) else b.nodes[n])
      && ReadyCount(r, n) == ReadyCount(b, n) + One(Ripe(b.nodes[n], now))
  {
    hide OnceEach, AllKnown, DrainAll, DrainRounds, NothingDue, ReadyCount;
    RipeIsDrained(b, jobs, now, n);
    DrainNodes(b, jobs, now);
    DrainReady(b, jobs, now, n);
  }

  lemma {:induction false} DrainReady(b: State, jobs: seq<Job>, now: int, n: Id)
    requires AllKnown(b) && OnceEach(b) && forall j | j in jobs :: j.node in b.nodes
    requires DrainRounds(b, jobs, now) && n in b.nodes
    ensures ReadyCount(DrainAll(b, jobs, now), n) == ReadyCount(b, n) + multiset(jobs)[Job(n, b.nodes[n].nextRetry)]
  {
    hide OnceEach, AllKnown, ReadyCount;
    if jobs != [] {
      hide DrainOne, DrainAll, DrainRounds;
      var init, job := jobs[..|jobs| - 1], jobs[|jobs| - 1];
      LastRound(b, jobs, now);
      DrainReady(b, init, now, n);
      DrainConserves(b, init, now);
      FuturePart(b);
      assert job in b.future;
      DrainOneReady(DrainAll(b, init, now), job, now, n);
      CountJob(init, job, Job(n, b.nodes[n].nextRetry));
      hide MustWait, Sorted, AllLater;
    }
  }

  lemma CountJob(jobs: seq<Job>, job: Job, j: Job)
    ensures multiset(jobs + [job])[j] == multiset(jobs)[j] + One(job == j)
  {
  }
}
