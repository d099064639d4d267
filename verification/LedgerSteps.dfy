/** What each event changes of the records that the ledger is about, in any run; leases, queues and caches aside. */
module LedgerSteps {
  import opened Basics
  import opened Retry
  import opened Inspection
  import opened Model
  import opened Safety
  import opened SafetyOfSteps
  import opened OnceTicks
  import opened Runs
  import opened LateFailures
  import opened Ledger

  // ---------------------------------------------------------------- records that stay

  predicate SameBadge(v: Worker, u: Worker) {
    u == v.(allowedQueues := u.allowedQueues, claimedWork := u.claimedWork)
  }

  /** A node may be queued, delayed or let go of. */
  predicate SameCard(v: Node, u: Node) {
    && u == v.(nextRetry := u.nextRetry, dequeueTimestamp := u.dequeueTimestamp, dequeueWorker := u.dequeueWorker)
    && ((u.dequeueTimestamp == v.dequeueTimestamp && u.dequeueWorker == v.dequeueWorker)
        || (u.dequeueTimestamp == 0 && u.dequeueWorker.None?))
  }

  ghost predicate SameBadges(b: State, c: State) {
    c.workers.Keys == b.workers.Keys && forall w | w in b.workers :: SameBadge(b.workers[w], c.workers[w])
  }

  ghost predicate SameCards(b: State, c: State) {
    c.nodes.Keys == b.nodes.Keys && forall n | n in b.nodes :: SameCard(b.nodes[n], c.nodes[n])
  }

  ghost predicate Untouched(b: State, c: State) {
    SameBadges(b, c) && SameCards(b, c)
  }

  lemma UntouchedTransitive(b: State, c: State, d: State)
    requires Untouched(b, c) && Untouched(c, d)
    ensures Untouched(b, d)
  {
  }

  lemma EnqueueUntouched(b: State, n: Id, now: int)
    requires AllKnown(b) && n in b.nodes
    ensures Untouched(b, EnqueueNode(b, n, now))
  {
    hide EnqueueNode;
    EnqueueKeepsNodes(b, n, now);
    EnqueueKeepsWorkers(b, n, now);
  }

  lemma {:induction false} NotifyUntouched(b: State, ds: seq<Id>, now: int)
    requires AllKnown(b) && forall d | d in ds :: d in b.nodes
    ensures Untouched(b, NotifyAll(b, ds, now))
  {
    if ds != [] {
      hide EnqueueNode, SourcesDone, AllKnown, Untouched;
      var init, d := ds[..|ds| - 1], ds[|ds| - 1];
      NotifyUntouched(b, init, now);
      var c := NotifyAll(b, init, now);
      if SourcesDone(c, d) {
        EnqueueUntouched(c, d, now);
        UntouchedTransitive(b, c, EnqueueNode(c, d, now));
      }
    } else {
      hide AllKnown;
    }
  }

  lemma ReclaimUntouched(b: State, n: Id, now: int)
    requires AllKnown(b) && n in b.nodes
    ensures Untouched(b, Reclaim(b, n, now))
  {
    hide EnqueueNode;
    var c := b.(nodes := b.nodes[n := Unclaim(b.nodes[n])]);
    EnqueueUntouched(c, n, now);
    UntouchedTransitive(b, c, Reclaim(b, n, now));
  }

  lemma {:induction false} ReclaimAllUntouched(b: State, ns: seq<Id>, now: int)
    requires AllKnown(b) && forall n | n in ns :: n in b.nodes
    ensures Untouched(b, ReclaimAll(b, ns, now))
  {
    if ns != [] {
      hide Reclaim, AllKnown, Untouched;
      var init, n := ns[..|ns| - 1], ns[|ns| - 1];
      ReclaimAllUntouched(b, init, now);
      ReclaimUntouched(ReclaimAll(b, init, now), n, now);
      UntouchedTransitive(b, ReclaimAll(b, init, now), ReclaimAll(b, ns, now));
    } else {
      hide AllKnown;
    }
  }

  lemma {:induction false} DrainUntouched(b: State, jobs: seq<Job>, now: int)
    requires AllKnown(b) && forall j | j in jobs :: j.node in b.nodes
    ensures Untouched(b, DrainAll(b, jobs, now))
  {
    if jobs != [] {
      hide EnqueueNode, AllKnown;
      var init, job := jobs[..|jobs| - 1], jobs[|jobs| - 1];
      DrainUntouched(b, init, now);
      var c := DrainAll(b, init, now);
      UndelayKnows(c, job);
      EnqueueUntouched(Undelay(c, job), job.node, now);
      UntouchedTransitive(b, Undelay(c, job), DrainAll(b, jobs, now));
    } else {
      hide AllKnown;
    }
  }

  lemma UndelayKnows(b: State, job: Job)
    requires AllKnown(b)
    ensures AllKnown(Undelay(b, job))
  {
  }

  // ---------------------------------------------------------------- the collector

  /** A worker that this tick looks at is fenced if more than sixty seconds have gone by since its last ping. */
  predicate Judged(v: Worker, u: Worker, looked: bool, now: int) {
    && SameBadge(v, u.(invalidated := v.invalidated))
    && u.invalidated == (v.invalidated || (looked && now / 1000 - v.lastPing > 60))
  }

  ghost predicate AllJudged(b: State, c: State, ws: seq<Id>, now: int) {
    c.workers.Keys == b.workers.Keys && forall w | w in b.workers :: Judged(b.workers[w], c.workers[w], w in ws, now)
  }

  lemma CollectOne(b: State, w: Id, now: int)
    requires AllKnown(b) && ClaimsKnown(b)
    ensures SameCards(b, CollectWorker(b, w, now)) && AllJudged(b, CollectWorker(b, w, now), [w], now)
  {
    if w in b.workers && Stale(b.workers[w], now) {
      hide ReclaimAll, AllKnown;
      ReclaimAllUntouched(b, b.workers[w].claimedWork, now);
    } else {
      hide AllKnown, ClaimsKnown;
    }
  }

  lemma JudgedThen(b: State, c: State, d: State, ws: seq<Id>, w: Id, now: int)
    requires AllJudged(b, c, ws, now) && AllJudged(c, d, [w], now)
    ensures AllJudged(b, d, ws + [w], now)
  {
  }

  lemma SameCardsTransitive(b: State, c: State, d: State)
    requires SameCards(b, c) && SameCards(c, d)
    ensures SameCards(b, d)
  {
  }

  lemma {:induction false} CollectAllJudges(b: State, ws: seq<Id>, now: int)
    requires AllKnown(b) && ClaimsKnown(b)
    ensures SameCards(b, CollectAll(b, ws, now)) && AllJudged(b, CollectAll(b, ws, now), ws, now)
  {
    if ws != [] {
      hide CollectWorker, AllKnown, ClaimsKnown, SameCards, AllJudged;
      var init, w := ws[..|ws| - 1], ws[|ws| - 1];
      assert ws == init + [w];
      CollectAllJudges(b, init, now);
      var c := CollectAll(b, init, now);
      CollectOne(c, w, now);
      SameCardsTransitive(b, c, CollectWorker(c, w, now));
      JudgedThen(b, c, CollectWorker(c, w, now), init, w, now);
    } else {
      hide AllKnown, ClaimsKnown;
    }
  }

  // ---------------------------------------------------------------- answers

  predicate Accepts(b: State, w: Id) {
    w in b.workers && !b.workers[w].invalidated
  }

  lemma ResolveCards(b: State, n: Id, value: Obj, now: int)
    requires AllKnown(b) && DestinationsKnown(b) && n in b.nodes
    ensures var c := ExecutionDidResolve(b, n, value, now);
      && SameBadges(b, c) && c.nodes.Keys == b.nodes.Keys
      && (forall m | m in b.nodes && m != n :: SameCard(b.nodes[m], c.nodes[m]))
      && SameCard(b.nodes[n].(completed := true, resolvedValue := value, dequeueTimestamp := 0, dequeueWorker := None),
                  c.nodes[n])
  {
    hide NotifyAll, ReleaseWorkerLock, AllKnown;
    var c := ReleaseWorkerLock(MarkCompleted(b, n, value), n);
    ReleaseIs(MarkCompleted(b, n, value), n);
    ReleaseKnows(b, n, value);
    NotifyUntouched(c, b.nodes[n].destinations, now);
  }

  lemma ReleaseKnows(b: State, n: Id, value: Obj)
    requires AllKnown(b) && n in b.nodes
    ensures var c := ReleaseWorkerLock(MarkCompleted(b, n, value), n); AllKnown(c) && c.nodes.Keys == b.nodes.Keys
  {
  }

  // ---------------------------------------------------------------- creation

  /** The back-links come after those already there. */
  lemma {:induction false} LinksAppend(nodes: map<Id, Node>, sources: seq<Id>, n: Id, m: Id)
    requires (forall s | s in sources :: s in nodes) && m in nodes
    ensures AddBackLinks(nodes, sources, n)[m].destinations == nodes[m].destinations + Times(n, multiset(sources)[m])
  {
    if sources != [] {
      var init, s := sources[..|sources| - 1], sources[|sources| - 1];
      assert sources == init + [s];
      LinksAppend(nodes, init, n, m);
      if s == m {
        TimesMore(n, multiset(init)[m]);
      }
      hide Times;
    }
  }

  lemma TimesMore(n: Id, k: nat)
    ensures Times(n, k + 1) == Times(n, k) + [n]
  {
  }

  ghost predicate CreatedCards(b: State, c: State, n: Id, decl: Decl, policy: Option<Policy>) {
    && c.nodes.Keys == b.nodes.Keys + {n}
    && SameCard(Node(decl, |b.created|, [], false, Raw(""), 0, None, -1, policy, []), c.nodes[n])
    && forall m | m in b.nodes ::
         SameCard(b.nodes[m].(destinations := b.nodes[m].destinations + Times(n, multiset(decl.sources)[m])),
                  c.nodes[m])
  }

  lemma InsertCards(b: State, n: Id, decl: Decl, policy: Option<Policy>)
    requires MayInsert(b, n, decl)
    ensures CreatedCards(b, InsertNode(b, n, decl, policy), n, decl, policy)
    ensures InsertNode(b, n, decl, policy).workers == b.workers
  {
    hide AddBackLinks, Times;
    var nodes := b.nodes[n := FreshNode(b, decl, policy)];
    forall m | m in nodes
      ensures AddBackLinks(nodes, decl.sources, n)[m].destinations
           == nodes[m].destinations + Times(n, multiset(decl.sources)[m])
    {
      LinksAppend(nodes, decl.sources, n, m);
    }
    assert n !in decl.sources;
    assert Times(n, 0) == [] by { TimesNone(n); }
    assert multiset(decl.sources)[n] == 0;
  }

  lemma TimesNone(n: Id)
    ensures Times(n, 0) == []
  {
  }

  lemma CreatedThen(b: State, c: State, d: State, n: Id, decl: Decl, policy: Option<Policy>)
    requires CreatedCards(b, c, n, decl, policy) && c.workers == b.workers && Untouched(c, d)
    ensures CreatedCards(b, d, n, decl, policy) && SameBadges(b, d)
  {
    hide Times;
  }

  lemma SameIsUntouched(b: State)
    ensures Untouched(b, b)
  {
  }

  lemma NewNodeCards(b: State, n: Id, decl: Decl, policy: Option<Policy>, now: int)
    requires MayInsert(b, n, decl)
    ensures CreatedCards(b, NewNode(b, n, decl, policy, now), n, decl, policy)
    ensures SameBadges(b, NewNode(b, n, decl, policy, now))
  {
    hide InsertNode, EnqueueNode, SourcesDone, CreatedCards, Untouched, SameBadges;
    InsertCards(b, n, decl, policy);
    var c := InsertNode(b, n, decl, policy);
    EnqueueUntouched(c, n, now);
    SameIsUntouched(c);
    CreatedThen(b, c, NewNode(b, n, decl, policy, now), n, decl, policy);
  }

  // ---------------------------------------------------------------- events

  ghost predicate WorkersAfter(b: State, c: State, e: Event) {
    match e.action
    case CreateWorker(w, exclude, include_, tolerations) =>
      c.workers == b.workers[w := Worker(exclude, include_, tolerations, e.now / 1000, {}, [], false)]
    case Ping(w) => w in b.workers && c.workers == b.workers[w := b.workers[w].(lastPing := e.now / 1000)]
    case CollectWorkers(order) => AllJudged(b, c, order, e.now) && forall w | w in b.workers :: w in order
    case _ => SameBadges(b, c)
  }

  ghost predicate NodesAfter(b: State, c: State, e: Event) {
    match e.action
    case CreateNode(n, decl, retry) => n !in b.nodes && CreatedCards(b, c, n, decl, PolicyFor(retry))
    case GetWork(w, _, job) =>
      job.node in b.nodes && c.nodes == b.nodes[job.node :=
        b.nodes[job.node].(dequeueTimestamp := e.now / 1000, dequeueWorker := Some(w))]
    case SubmitWork(w, m, value) =>
      var n := m.identifier;
      if !Accepts(b, w) then SameCards(b, c)
      else
        && n in b.nodes && c.nodes.Keys == b.nodes.Keys
        && (forall k | k in b.nodes && k != n :: SameCard(b.nodes[k], c.nodes[k]))
        && SameCard(b.nodes[n].(completed := true, resolvedValue := value, dequeueTimestamp := 0,
                                dequeueWorker := None), c.nodes[n])
    case SubmitFailure(w, m, traceback, jitter) =>
      if !Accepts(b, w) then SameCards(b, c)
      else m.identifier in b.nodes && Charged(b, c, m.identifier, traceback, jitter, e.now)
    case _ => SameCards(b, c)
  }

  ghost predicate Steps(b: State, c: State, e: Event) {
    WorkersAfter(b, c, e) && NodesAfter(b, c, e)
  }

  lemma PlainSteps(s: System, e: Event)
    requires SoundSystem(s) && Enabled(s, e)
    requires e.action.CreateWorker? || e.action.CreateInstance? || e.action.Ping? || e.action.GetNothing?
    ensures Steps(s.b, After(s, e), e)
  {
    hide Sound, Describes, NothingFor, EffectiveAllowed;
  }

  lemma CreateNodeSteps(s: System, e: Event)
    requires SoundSystem(s) && Enabled(s, e) && e.action.CreateNode?
    ensures Steps(s.b, After(s, e), e)
  {
    hide Sound, Describes, NewNode, CreatedCards, SameBadges;
    NewNodeCards(s.b, e.action.node, e.action.decl, PolicyFor(e.action.retry), e.now);
  }

  lemma GetWorkSteps(s: System, e: Event)
    requires SoundSystem(s) && Enabled(s, e) && e.action.GetWork?
    ensures Steps(s.b, After(s, e), e)
  {
    hide Sound, Describes, Claim, LeastJob;
    var a := e.action;
    LeastJobIsQueued(s.b, a.worker, a.queue, a.job);
    QueuedJobIsDue(s.b, a.queue, a.job);
    ClaimCards(s.b, a.worker, a.queue, a.job, e.now);
  }

  lemma ClaimCards(b: State, w: Id, q: string, job: Job, now: int)
    requires w in b.workers && q in b.queues && job.node in b.nodes
    ensures var c := Claim(b, w, q, job, now);
      && SameBadges(b, c)
      && c.nodes == b.nodes[job.node :=
           b.nodes[job.node].(dequeueTimestamp := now / 1000, dequeueWorker := Some(w))]
  {
  }

  lemma AnswerSteps(s: System, e: Event)
    requires SoundSystem(s) && Enabled(s, e) && e.action.SubmitWork?
    ensures Steps(s.b, After(s, e), e)
  {
    hide SoundSystem, Enabled, Sound, Describes, ExecutionDidResolve, SameBadges, SameCards, SameCard, AllKnown,
         DestinationsKnown;
    SystemFacts(s);
    SoundBasics(s.b);
    AnswersKnown(s, e);
    KnownNode(s.b, e.action.message);
    SameStays(s.b);
    ResolveCards(s.b, e.action.message.identifier, e.action.value, e.now);
  }

  lemma KnownNode(b: State, m: NodeMessage)
    requires Describes(b, m)
    ensures m.identifier in b.nodes
  {
  }

  lemma SameStays(b: State)
    ensures SameBadges(b, b) && SameCards(b, b)
  {
  }

  lemma FailureSteps(s: System, e: Event)
    requires SoundSystem(s) && Enabled(s, e) && e.action.SubmitFailure? && s.clock >= 0
    ensures Steps(s.b, After(s, e), e)
  {
    hide SoundSystem, Enabled, Sound, Describes, ExecutionDidFail, SameBadges, SameCards, AllKnown, Charged, After;
    FailureEvent(s, e);
    SameStays(s.b);
    var n := e.action.message.identifier;
    FailureIsCharged(s.b, n, e.action.traceback, e.action.jitter, e.now);
    ChargedBadges(s.b, ExecutionDidFail(s.b, n, e.action.traceback, e.action.jitter, e.now), e, n);
  }

  lemma ChargedBadges(b: State, c: State, e: Event, n: Id)
    requires e.action.SubmitFailure? && n in b.nodes
    requires Charged(b, c, n, e.action.traceback, e.action.jitter, e.now)
    ensures SameBadges(b, c)
  {
    hide FailedNode, Without;
  }

  lemma TickSteps(s: System, e: Event)
    requires SoundSystem(s) && Enabled(s, e)
    requires e.action.CollectWorkers? || e.action.QueueFuture? || e.action.Stall?
    ensures Steps(s.b, After(s, e), e)
  {
    hide Sound, Describes, CollectAll, DrainAll, DrainRounds, NothingDue, Reenters, AllKnown, ClaimsKnown, NoDup;
    SoundBasics(s.b);
    match e.action {
      case CollectWorkers(order) => CollectAllJudges(s.b, order, e.now);
      case QueueFuture(jobs) => DrainUntouched(s.b, jobs, e.now);
      case Stall(jobs, _) => DrainUntouched(s.b, jobs, e.now);
    }
  }

  /** The records of workers and nodes after an event of any run. */
  lemma EventSteps(s: System, e: Event)
    requires SoundSystem(s) && Enabled(s, e) && s.clock >= 0
    ensures Steps(s.b, Next(s, e).b, e)
  {
    hide SoundSystem, Enabled, After, Next, Steps, Sound;
    NextIsAfter(s, e);
    match e.action {
      case CreateNode(_, _, _) => CreateNodeSteps(s, e);
      case GetWork(_, _, _) => GetWorkSteps(s, e);
      case SubmitWork(_, _, _) => AnswerSteps(s, e);
      case SubmitFailure(_, _, _, _) => FailureSteps(s, e);
      case CollectWorkers(_) => TickSteps(s, e);
      case QueueFuture(_) => TickSteps(s, e);
      case Stall(_, _) => TickSteps(s, e);
      case _ => PlainSteps(s, e);
    }
  }
}
