/**
 * What the operations of the broker do to its value, in the pieces in which the objects change: the map arithmetic that
 * the proofs in Broker need, with no object in sight.
 */
module Effects {
  import opened Basics
  import Retry
  import opened Inspection
  import M = Model
  import OnceTicks
  import Draining
  import SafetyOfSteps

  function ForgetExcept(ws: map<Id, M.Worker>, rest: set<Id>): map<Id, M.Worker> {
    map w | w in ws :: if w in rest then ws[w] else ws[w].(allowedQueues := {})
  }

  lemma ForgetNone(ws: map<Id, M.Worker>)
    ensures ForgetExcept(ws, ws.Keys) == ws
  {
  }

  lemma ForgetOneMore(ws: map<Id, M.Worker>, rest: set<Id>, w: Id)
    requires w in rest && w in ws
    ensures ForgetExcept(ws, rest).Keys == ws.Keys
    ensures ForgetExcept(ws, rest - {w})
         == ForgetExcept(ws, rest)[w := ForgetExcept(ws, rest)[w].(allowedQueues := {})]
  {
  }

  lemma ForgetAll(ws: map<Id, M.Worker>)
    ensures ForgetExcept(ws, {}) == M.ForgetAllowed(ws)
  {
  }

  function WithJob(queues: map<string, M.Queue>, q: string, job: M.Job): map<string, M.Queue>
    requires q in queues
  {
    queues[q := queues[q].(jobs := queues[q].jobs + multiset{job})]
  }

  function Retried(ns: map<Id, M.Node>, n: Id, time: int): map<Id, M.Node>
    requires n in ns
  {
    ns[n := ns[n].(nextRetry := time)]
  }

  function Update(b: M.State, n: Id, value: M.Node): M.State {
    b.(nodes := b.nodes[n := value])
  }

  lemma UpdateKnows(b: M.State, n: Id, value: M.Node)
    requires M.AllKnown(b) && n in b.nodes && value.decl == b.nodes[n].decl
    ensures M.AllKnown(Update(b, n, value))
  {
  }

  lemma UpdateTwice(b: M.State, n: Id, v: M.Node, w: M.Node)
    ensures Update(Update(b, n, v), n, w) == Update(b, n, w)
  {
  }

  lemma NotifyStep(b: M.State, ds: seq<Id>, i: nat, now: int)
    requires M.AllKnown(b) && (forall d | d in ds :: d in b.nodes) && i < |ds|
    ensures (forall d | d in ds[..i] :: d in b.nodes) && (forall d | d in ds[..i + 1] :: d in b.nodes)
    ensures M.NotifyAll(b, ds[..i + 1], now) == M.DependencyDidResolve(M.NotifyAll(b, ds[..i], now), ds[i], now)
  {
    hide M.DependencyDidResolve, M.AllKnown;
    assert ds[..i + 1][..i] == ds[..i];
  }

  lemma ResolveParts(b: M.State, n: Id, value: Obj, now: int)
    requires M.AllKnown(b) && M.DestinationsKnown(b) && n in b.nodes
    ensures var c := M.ReleaseWorkerLock(M.MarkCompleted(b, n, value), n);
      && M.AllKnown(c) && n in c.nodes && c.nodes[n].destinations == b.nodes[n].destinations
      && (forall d | d in c.nodes[n].destinations :: d in c.nodes)
      && M.ExecutionDidResolve(b, n, value, now) == M.NotifyAll(c, c.nodes[n].destinations, now)
  {
  }

  function OneOf(names: seq<string>): string -> bool {
    (q: string) => q in names
  }

  function NoneOf(names: seq<string>): string -> bool {
    (q: string) => q !in names
  }

  lemma FilterMembers(s: seq<string>, f: string -> bool)
    ensures forall q :: q in Filter(s, f) <==> q in s && f(q)
  {
  }

  lemma FillKnows(b: M.State, w: Id, names: seq<string>)
    requires M.AllKnown(b) && w in b.workers && b.workers[w].allowedQueues == {}
    requires forall q :: q in names <==> q in M.Allowed(b, b.workers[w])
    ensures M.AllKnown(M.FillCache(b, w))
    ensures M.FillCache(b, w).workers == b.workers[w := b.workers[w].(allowedQueues := (set q | q in names))]
  {
    assert (set q | q in names) == M.Allowed(b, b.workers[w]);
  }

  lemma FullCacheStays(b: M.State, w: Id)
    requires w in b.workers && b.workers[w].allowedQueues != {}
    ensures M.FillCache(b, w) == b
  {
  }

  /** Neither the name of a queue in use nor a priority is one of the two sentinels of PopNextNode. */
  ghost predicate BelowSentinel(queues: map<string, M.Queue>) {
    && ("" in queues ==> queues[""].jobs == multiset{})
    && forall q, j | q in queues && j in queues[q].jobs :: j.priority < M.MAX_INT64
  }

  /** The least priority of a queue that is not empty. */
  ghost predicate Top(jobs: multiset<M.Job>, priority: int) {
    exists job :: M.Least(jobs, job) && job.priority == priority
  }

  /** What the scan knows after looking at the queues in seen. */
  ghost predicate Best(queues: map<string, M.Queue>, allowed: seq<string>, seen: set<string>, name: string,
                       minimum: int)
  {
    && seen <= queues.Keys && minimum <= M.MAX_INT64
    && (if minimum == M.MAX_INT64 then name == ""
        else name in allowed && name in seen && Top(queues[name].jobs, minimum))
    && forall q, j | q in allowed && q in seen && j in queues[q].jobs :: minimum <= j.priority
  }

  lemma NoneSeen(queues: map<string, M.Queue>, allowed: seq<string>)
    ensures Best(queues, allowed, {}, "", M.MAX_INT64)
  {
  }

  lemma SeenUnusable(queues: map<string, M.Queue>, allowed: seq<string>, seen: set<string>, name: string, minimum: int,
                     q: string)
    requires Best(queues, allowed, seen, name, minimum) && q in queues && q !in allowed
    ensures Best(queues, allowed, seen + {q}, name, minimum)
  {
  }

  lemma SeenEmpty(queues: map<string, M.Queue>, allowed: seq<string>, seen: set<string>, name: string, minimum: int,
                  q: string)
    requires Best(queues, allowed, seen, name, minimum) && q in queues && queues[q].jobs == multiset{}
    ensures Best(queues, allowed, seen + {q}, name, minimum)
  {
  }

  lemma SeenTop(queues: map<string, M.Queue>, allowed: seq<string>, seen: set<string>, name: string, minimum: int,
                q: string, top: int)
    requires Best(queues, allowed, seen, name, minimum) && q in queues && q in allowed && Top(queues[q].jobs, top)
    ensures if top < minimum then Best(queues, allowed, seen + {q}, q, top)
            else Best(queues, allowed, seen + {q}, name, minimum)
  {
  }

  lemma FillKeeps(b: M.State, w: Id)
    requires w in b.workers
    ensures M.FillCache(b, w).queues == b.queues && M.FillCache(b, w).nodes == b.nodes
  {
  }

  /**
   * What it means that PopNextNode has nothing: no usable job is below the largest priority, which is where the scan
   * starts, or the queue with the empty name, which is how it starts, has a least job.
   */
  ghost predicate SentAway(b: M.State, w: Id)
    requires w in b.workers
  {
    var usable := M.EffectiveAllowed(b, b.workers[w]);
    || (forall p, j | p in usable && p in b.queues && j in b.queues[p].jobs :: j.priority >= M.MAX_INT64)
    || exists job :: M.LeastJob(b, w, "", job)
  }

  lemma BestIsNothing(b: M.State, w: Id, allowed: seq<string>, minimum: int)
    requires w in b.workers && forall q :: q in allowed <==> q in M.EffectiveAllowed(b, b.workers[w])
    requires Best(b.queues, allowed, b.queues.Keys, "", minimum)
    ensures SentAway(b, w)
  {
    if minimum < M.MAX_INT64 {
      var job :| M.Least(b.queues[""].jobs, job) && job.priority == minimum;
      assert M.LeastJob(b, w, "", job);
    }
    hide M.EffectiveAllowed;
  }

  lemma JobForWorker(b: M.State, w: Id, q: string, j: M.Job)
    requires w in b.workers && BelowSentinel(b.queues)
    requires q in M.EffectiveAllowed(b, b.workers[w]) && q in b.queues && j in b.queues[q].jobs
    ensures !SentAway(b, w)
  {
    hide M.EffectiveAllowed;
    assert j.priority < M.MAX_INT64;
  }

  /** With no job at a sentinel, nothing means nothing. */
  lemma OrdinarySentAway(b: M.State, w: Id)
    requires w in b.workers && BelowSentinel(b.queues) && SentAway(b, w)
    ensures M.NothingFor(b, w)
  {
    hide M.EffectiveAllowed;
    forall p, j | p in M.EffectiveAllowed(b, b.workers[w]) && p in b.queues
      ensures j !in b.queues[p].jobs
    {
      if j in b.queues[p].jobs {
        JobForWorker(b, w, p, j);
      }
    }
  }

  lemma BestIsThere(b: M.State, allowed: seq<string>, name: string, minimum: int)
    requires Best(b.queues, allowed, b.queues.Keys, name, minimum) && name != ""
    ensures name in b.queues && b.queues[name].jobs != multiset{}
  {
  }

  lemma BestIsLeast(b: M.State, w: Id, allowed: seq<string>, name: string, minimum: int, job: M.Job)
    requires w in b.workers && forall q :: q in allowed <==> q in M.EffectiveAllowed(b, b.workers[w])
    requires Best(b.queues, allowed, b.queues.Keys, name, minimum) && name != "" && name in b.queues
    requires M.Least(b.queues[name].jobs, job)
    ensures M.LeastJob(b, w, name, job) && job.priority < M.MAX_INT64
  {
  }

  /** What Claim does once the cache is filled. */
  function Handed(c: M.State, w: Id, q: string, job: M.Job, now: int): M.State
    requires w in c.workers && q in c.queues && job.node in c.nodes
  {
    var worker, node := c.workers[w], c.nodes[job.node];
    c.(workers := c.workers[w := worker.(claimedWork := worker.claimedWork + [job.node])],
       nodes := c.nodes[job.node := node.(dequeueTimestamp := M.Unix(now), dequeueWorker := Some(w))],
       queues := WithoutJob(c.queues, q, job))
  }

  lemma HandedParts(c: M.State, w: Id, q: string, job: M.Job, now: int)
    requires w in c.workers && q in c.queues && job.node in c.nodes
    ensures var r, worker, node := Handed(c, w, q, job, now), c.workers[w], c.nodes[job.node];
      && r.workers == c.workers[w := worker.(claimedWork := worker.claimedWork + [job.node])]
      && r.nodes == c.nodes[job.node := node.(dequeueTimestamp := M.Unix(now), dequeueWorker := Some(w))]
      && r.queues == WithoutJob(c.queues, q, job) && r.future == c.future && r.instances == c.instances
    ensures M.AllKnown(c) ==> M.AllKnown(Handed(c, w, q, job, now))
  {
  }

  lemma HandedIsClaim(b: M.State, w: Id, q: string, job: M.Job, now: int)
    requires w in b.workers && q in b.queues && job.node in b.nodes
    ensures M.Claim(b, w, q, job, now) == Handed(M.FillCache(b, w), w, q, job, now)
  {
  }

  lemma ReclaimStep(b: M.State, ns: seq<Id>, i: nat, now: int)
    requires M.AllKnown(b) && (forall n | n in ns :: n in b.nodes) && i < |ns|
    ensures (forall n | n in ns[..i] :: n in b.nodes) && (forall n | n in ns[..i + 1] :: n in b.nodes)
    ensures M.ReclaimAll(b, ns[..i + 1], now) == M.Reclaim(M.ReclaimAll(b, ns[..i], now), ns[i], now)
  {
    hide M.Reclaim, M.AllKnown;
    assert ns[..i + 1][..i] == ns[..i];
  }

  lemma RetireKnows(b: M.State, w: Id)
    requires M.AllKnown(b) && w in b.workers
    ensures M.AllKnown(M.Retire(b, w))
  {
  }

  lemma CollectParts(b: M.State, w: Id, now: int)
    requires M.AllKnown(b) && M.ClaimsKnown(b) && w in b.workers
    ensures b.workers[w].lastPing >= M.Unix(now) - M.REQUIRED_PING_INTERVAL ==> M.CollectWorker(b, w, now) == b
    ensures forall n | n in b.workers[w].claimedWork :: n in b.nodes
    ensures b.workers[w].lastPing < M.Unix(now) - M.REQUIRED_PING_INTERVAL ==>
      var c := M.ReclaimAll(b, b.workers[w].claimedWork, now);
      w in c.workers && M.CollectWorker(b, w, now) == M.Retire(c, w)
  {
    M.ReclaimAllKeepsWorkers(b, b.workers[w].claimedWork, now);
    hide M.ReclaimAll;
  }

  lemma CollectNone(b: M.State, now: int)
    requires M.AllKnown(b) && M.ClaimsKnown(b)
    ensures M.CollectAll(b, [], now) == b && NoDup<Id>([])
  {
  }

  lemma CollectMore(b: M.State, order: seq<Id>, w: Id, now: int)
    requires M.AllKnown(b) && M.ClaimsKnown(b)
    ensures M.CollectAll(b, order + [w], now) == M.CollectWorker(M.CollectAll(b, order, now), w, now)
    ensures NoDup(order) && w !in order ==> NoDup(order + [w])
  {
  }

  lemma FutureKnows(b: M.State, future: multiset<M.Job>)
    requires M.AllKnown(b)
    ensures M.AllKnown(b.(future := future))
  {
  }

  lemma DrainNone(b: M.State, now: int)
    requires M.AllKnown(b)
    ensures M.DrainAll(b, [], now) == b && M.DrainRounds(b, [], now)
  {
  }

  lemma TopMeansSome(jobs: multiset<M.Job>, priority: int)
    requires Top(jobs, priority)
    ensures jobs != multiset{}
  {
  }

  lemma NoneDue(b: M.State, now: int)
    requires b.future == multiset{}
    ensures M.NothingDue(b, now)
  {
  }

  /** The least job is not due yet, so nothing is. */
  lemma LaterDue(b: M.State, priority: int, now: int)
    requires Top(b.future, priority) && priority > now
    ensures M.NothingDue(b, now)
  {
  }

  /** One more round. */
  lemma DrainMore(b: M.State, jobs: seq<M.Job>, job: M.Job, top: int, now: int)
    requires M.AllKnown(b) && (forall j | j in jobs :: j.node in b.nodes) && M.DrainRounds(b, jobs, now)
    requires var c := M.DrainAll(b, jobs, now);
      Top(c.future, top) && top <= now && M.Least(c.future, job) && job.node in c.nodes
      && !M.MustWait(c.nodes[job.node], now)
    ensures forall j | j in jobs + [job] :: j.node in b.nodes
    ensures var c, r := M.DrainAll(b, jobs, now), M.DrainAll(b, jobs + [job], now);
      && r == M.DrainOne(c, job, now) && |r.future| < |c.future| && M.DrainRounds(b, jobs + [job], now)
  {
    hide M.DrainOne, M.MustWait, M.AllKnown;
    OnceTicks.DrainOneIs(M.DrainAll(b, jobs, now), job, now);
    assert (jobs + [job])[..|jobs|] == jobs;
  }

  lemma DrainStalls(c: M.State, job: M.Job, top: int, now: int)
    requires Top(c.future, top) && top <= now && M.Least(c.future, job) && job.node in c.nodes
    requires M.MustWait(c.nodes[job.node], now)
    ensures M.Reenters(c, job, now)
  {
  }

  lemma DrainEnds(b: M.State, jobs: seq<M.Job>, job: M.Job, stalled: bool, now: int)
    requires M.AllKnown(b) && (forall j | j in jobs :: j.node in b.nodes) && M.DrainRounds(b, jobs, now)
    requires var c := M.DrainAll(b, jobs, now);
      if stalled then M.Reenters(c, job, now) else M.NothingDue(c, now)
    ensures stalled <==> exists j :: M.Overtaken(b, j, now)
  {
    hide M.AllKnown, M.DrainAll, M.DrainRounds, M.NothingDue, M.Overtaken, M.Reenters;
    forall j
      ensures M.NothingDue(M.DrainAll(b, jobs, now), now) ==> !M.Overtaken(b, j, now)
      ensures M.Reenters(M.DrainAll(b, jobs, now), j, now) ==> M.Overtaken(b, j, now)
    {
      Draining.TickMeetsOvertaken(b, jobs, now, j);
    }
  }

  lemma NewWorkerKnows(b: M.State, w: Id, exclude: seq<string>, include_: seq<string>, tolerations: seq<string>,
                       now: int)
    requires M.AllKnown(b)
    ensures M.AllKnown(M.NewWorker(b, w, exclude, include_, tolerations, now))
  {
  }

  lemma NewInstanceKnows(b: M.State, i: Id)
    requires M.AllKnown(b)
    ensures M.AllKnown(M.NewInstance(b, i))
  {
  }

  /** The node is in the graph, its back-links are not. */
  function Planted(b: M.State, n: Id, decl: M.Decl, policy: Option<Retry.Policy>): M.State {
    b.(nodes := b.nodes[n := M.FreshNode(b, decl, policy)], created := b.created + [n])
  }

  lemma PlantedKnows(b: M.State, n: Id, decl: M.Decl, policy: Option<Retry.Policy>)
    requires M.AllKnown(b) && decl.instance in b.instances
    ensures M.AllKnown(Planted(b, n, decl, policy)) && Planted(b, n, decl, policy).instances == b.instances
    ensures Planted(b, n, decl, policy).nodes == b.nodes[n := M.FreshNode(b, decl, policy)]
  {
  }

  function Linked(ns: map<Id, M.Node>, source: Id, n: Id): map<Id, M.Node>
    requires source in ns
  {
    ns[source := ns[source].(destinations := ns[source].destinations + [n])]
  }

  lemma LinkedKnows(b: M.State, source: Id, n: Id)
    requires M.AllKnown(b) && source in b.nodes
    ensures M.AllKnown(b.(nodes := Linked(b.nodes, source, n)))
  {
  }

  lemma LinkNone(ns: map<Id, M.Node>, n: Id)
    ensures M.AddBackLinks(ns, [], n) == ns
  {
  }

  lemma LinkMore(ns: map<Id, M.Node>, sources: seq<Id>, i: nat, n: Id)
    requires (forall s | s in sources :: s in ns) && i < |sources|
    ensures (forall s | s in sources[..i] :: s in ns) && (forall s | s in sources[..i + 1] :: s in ns)
    ensures M.AddBackLinks(ns, sources[..i + 1], n) == Linked(M.AddBackLinks(ns, sources[..i], n), sources[i], n)
  {
    assert sources[..i + 1][..i] == sources[..i];
  }

  lemma InsertParts(b: M.State, n: Id, decl: M.Decl, policy: Option<Retry.Policy>)
    requires SafetyOfSteps.MayInsert(b, n, decl)
    ensures var c := Planted(b, n, decl, policy);
      M.InsertNode(b, n, decl, policy) == c.(nodes := M.AddBackLinks(c.nodes, decl.sources, n))
  {
  }

  lemma PingKnows(b: M.State, w: Id, now: int)
    requires M.AllKnown(b) && w in b.workers
    ensures M.AllKnown(M.Ping(b, w, now))
  {
  }

  lemma WithQueueParts(b: M.State, q: string, taint: string)
    ensures q in b.queues ==> M.WithQueue(b, q, taint) == b
    ensures q !in b.queues ==>
      && M.WithQueue(b, q, taint).queues == b.queues[q := M.Queue(taint, multiset{})]
      && M.WithQueue(b, q, taint).workers == M.ForgetAllowed(b.workers)
  {
  }

  lemma ReleaseKnows(b: M.State, n: Id)
    requires M.AllKnown(b) && n in b.nodes
    ensures M.AllKnown(M.ReleaseWorkerLock(b, n))
  {
  }

  function WithoutJob(queues: map<string, M.Queue>, q: string, job: M.Job): map<string, M.Queue>
    requires q in queues
  {
    queues[q := queues[q].(jobs := queues[q].jobs - multiset{job})]
  }
}
