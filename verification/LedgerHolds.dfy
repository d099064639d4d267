/** In every run the broker's records are what the ledger says; what follows for fences, hand-outs, messages, waits. */
module LedgerHolds {
  import opened Basics
  import opened Retry
  import opened Inspection
  import opened Model
  import opened Safety
  import opened Runs
  import opened Schedules
  import opened OnceTicks
  import opened LateFailures
  import opened Ledger
  import opened LedgerSteps

  // ---------------------------------------------------------------- one event

  lemma Snoc(es: seq<Event>, e: Event)
    ensures (es + [e])[..|es + [e]| - 1] == es && (es + [e])[|es + [e]| - 1] == e
  {
  }

  lemma RegisteredFollows(es: seq<Event>, e: Event, w: Id)
    requires e.action.CreateWorker? && e.action.worker == w && !Fenced(es, w)
    ensures var a := e.action;
      WorkerFollows(es + [e], w,
                    Worker(a.excludeQueues, a.includeQueues, a.queueTolerations, e.now / 1000, {}, [], false))
  {
    Snoc(es, e);
  }

  lemma PingFollows(es: seq<Event>, e: Event, w: Id, v: Worker)
    requires e.action.Ping? && e.action.worker == w && WorkerFollows(es, w, v)
    ensures WorkerFollows(es + [e], w, v.(lastPing := e.now / 1000))
  {
    Snoc(es, e);
  }

  lemma JudgedFollows(es: seq<Event>, e: Event, w: Id, v: Worker, u: Worker)
    requires e.action.CollectWorkers? && WorkerFollows(es, w, v) && Judged(v, u, true, e.now)
    ensures WorkerFollows(es + [e], w, u)
  {
    Snoc(es, e);
  }

  lemma SameBadgeFollows(es: seq<Event>, e: Event, w: Id, v: Worker, u: Worker)
    requires WorkerFollows(es, w, v) && SameBadge(v, u) && !e.action.CollectWorkers?
    requires !(e.action.CreateWorker? && e.action.worker == w) && !(e.action.Ping? && e.action.worker == w)
    ensures WorkerFollows(es + [e], w, u)
  {
    Snoc(es, e);
  }

  lemma StrangerUnfenced(es: seq<Event>, w: Id)
    requires Strange(es, w)
    ensures !Fenced(es, w)
  {
  }

  lemma StrangerFollows(es: seq<Event>, e: Event, w: Id)
    requires Strange(es, w) && !(e.action.CreateWorker? && e.action.worker == w)
    requires !(e.action.Ping? && e.action.worker == w)
    ensures Strange(es + [e], w)
  {
    Snoc(es, e);
  }

  lemma WorkersFollowOn(es: seq<Event>, b: State, c: State, e: Event)
    requires WorkersFollow(es, b) && WorkersAfter(b, c, e)
    requires e.action.CreateWorker? ==> e.action.worker !in b.workers
    ensures WorkersFollow(es + [e], c)
  {
    hide WorkerFollows, Strange;
    forall w | w in c.workers
      ensures WorkerFollows(es + [e], w, c.workers[w])
    {
      if e.action.CreateWorker? && e.action.worker == w {
        assert !Fenced(es, w) by { StrangerUnfenced(es, w); }
        RegisteredFollows(es, e, w);
      } else if e.action.Ping? && e.action.worker == w {
        PingFollows(es, e, w, b.workers[w]);
      } else if e.action.CollectWorkers? {
        JudgedFollows(es, e, w, b.workers[w], c.workers[w]);
      } else {
        SameBadgeFollows(es, e, w, b.workers[w], c.workers[w]);
      }
    }
    forall w | w !in c.workers
      ensures Strange(es + [e], w)
    {
      StrangerFollows(es, e, w);
    }
  }

  lemma InstancesFollowOn(es: seq<Event>, b: State, c: State, e: Event)
    requires InstancesFollow(es, b)
    requires if e.action.CreateInstance? then
               e.action.instance !in b.instances && c.instances == b.instances[e.action.instance := |b.instances|]
             else c.instances == b.instances
    ensures InstancesFollow(es + [e], c)
  {
    Snoc(es, e);
  }

  lemma PolicyFollowsRequest(retry: Option<RetryMessage>)
    ensures PolicyFollows(PolicyFor(retry), retry, 0)
  {
  }

  lemma PolicyFollowsFailure(policy: Option<Policy>, retry: Option<RetryMessage>, failures: nat)
    requires PolicyFollows(policy, retry, failures)
    ensures PolicyFollows(if policy.Some? then Some(Advance(policy.value)) else None, retry, failures + 1)
  {
  }

  lemma FailedCard(node: Node, traceback: string, jitter: real, now: int)
    ensures SameCard(node.(failures := node.failures + [traceback], dequeueTimestamp := 0, dequeueWorker := None,
                           policy := if node.policy.Some? then Some(Advance(node.policy.value)) else None),
                     FailedNode(node, traceback, jitter, now))
  {
  }

  /** A record that only the ledger's own terms can change. */
  lemma SameCardFollows(es: seq<Event>, n: Id, v: Node, u: Node)
    requires NodeFollows(es, n, v) && SameCard(v, u)
    ensures NodeFollows(es, n, u)
  {
  }

  /** The event says nothing about n. */
  predicate Silent(es: seq<Event>, e: Event, n: Id) {
    match e.action
    case CreateNode(m, decl, _) => m != n && multiset(decl.sources)[n] == 0
    case GetWork(_, _, job) => job.node != n
    case SubmitWork(w, m, _) => m.identifier != n || Fenced(es, w)
    case SubmitFailure(w, m, _, _) => m.identifier != n || Fenced(es, w)
    case _ => true
  }

  lemma SilentFollows(es: seq<Event>, e: Event, n: Id, v: Node)
    requires Silent(es, e, n)
    ensures NodeFollows(es + [e], n, v) == NodeFollows(es, n, v)
    ensures CreationOf(es + [e], n) == CreationOf(es, n)
  {
    Snoc(es, e);
    hide PolicyFollows;
    if e.action.CreateNode? {
      TimesNone(e.action.node);
      assert MentionsOf(es, n) + [] == MentionsOf(es, n);
    }
  }

  lemma CreatedFollows(es: seq<Event>, e: Event, u: Node)
    requires e.action.CreateNode? && TracebacksOf(es, e.action.node) == [] && MentionsOf(es, e.action.node) == []
    requires ValueOf(es, e.action.node).None? && e.action.node !in e.action.decl.sources
    requires exists rank: nat :: SameCard(Node(e.action.decl, rank, [], false, Raw(""), 0, None, -1,
                                               PolicyFor(e.action.retry), []), u)
    ensures NodeFollows(es + [e], e.action.node, u)
  {
    Snoc(es, e);
    PolicyFollowsRequest(e.action.retry);
    TimesNone(e.action.node);
    hide PolicyFollows, PolicyFor, Times;
  }

  lemma MentionedFollows(es: seq<Event>, e: Event, n: Id, v: Node, u: Node)
    requires e.action.CreateNode? && e.action.node != n && NodeFollows(es, n, v)
    requires SameCard(v.(destinations := v.destinations + Times(e.action.node, multiset(e.action.decl.sources)[n])), u)
    ensures NodeFollows(es + [e], n, u)
  {
    Snoc(es, e);
    hide PolicyFollows, Times;
  }

  lemma ClaimedFollows(es: seq<Event>, e: Event, v: Node, u: Node)
    requires e.action.GetWork? && NodeFollows(es, e.action.job.node, v)
    requires u == v.(dequeueTimestamp := e.now / 1000, dequeueWorker := Some(e.action.worker))
    ensures NodeFollows(es + [e], e.action.job.node, u)
  {
    Snoc(es, e);
    hide PolicyFollows;
  }

  lemma AnsweredFollows(es: seq<Event>, e: Event, v: Node, u: Node)
    requires e.action.SubmitWork? && NodeFollows(es, e.action.message.identifier, v) && !Fenced(es, e.action.worker)
    requires SameCard(v.(completed := true, resolvedValue := e.action.value, dequeueTimestamp := 0,
                         dequeueWorker := None), u)
    ensures NodeFollows(es + [e], e.action.message.identifier, u)
  {
    Snoc(es, e);
    hide PolicyFollows;
  }

  lemma FailedFollows(es: seq<Event>, e: Event, v: Node)
    requires e.action.SubmitFailure? && NodeFollows(es, e.action.message.identifier, v) && !Fenced(es, e.action.worker)
    ensures NodeFollows(es + [e], e.action.message.identifier,
                        FailedNode(v, e.action.traceback, e.action.jitter, e.now))
  {
    Snoc(es, e);
    var n := e.action.message.identifier;
    PolicyFollowsFailure(v.policy, CreationOf(es, n).value.retry, |TracebacksOf(es, n)|);
    FailedCard(v, e.action.traceback, e.action.jitter, e.now);
    hide PolicyFollows, FailedNode, Advance;
  }

  lemma SilentUnheard(es: seq<Event>, e: Event, n: Id)
    requires Silent(es, e, n) && Unheard(es, n)
    ensures Unheard(es + [e], n)
  {
    Snoc(es, e);
    if e.action.CreateNode? {
      TimesNone(e.action.node);
    }
  }

  /** The event speaks of nodes and workers that are there. */
  ghost predicate Speaks(b: State, e: Event) {
    match e.action
    case CreateWorker(w, _, _, _) => w !in b.workers
    case CreateNode(_, decl, _) => forall x | x in decl.sources :: x in b.nodes
    case SubmitWork(w, m, _) => w in b.workers && m.identifier in b.nodes
    case SubmitFailure(w, m, _, _) => w in b.workers && m.identifier in b.nodes
    case _ => true
  }

  lemma UnheardOn(es: seq<Event>, b: State, c: State, e: Event, n: Id)
    requires NodesFollow(es, b) && NodesAfter(b, c, e) && Speaks(b, e) && n !in c.nodes
    ensures Unheard(es + [e], n)
  {
    assert Unheard(es, n);
    hide SameCard, Charged, NodeFollows, Unheard, Accepts;
    if e.action.CreateNode? {
      assert n !in e.action.decl.sources;
    }
    assert Silent(es, e, n);
    SilentUnheard(es, e, n);
  }

  lemma CreationOn(es: seq<Event>, b: State, c: State, e: Event, n: Id)
    requires NodesFollow(es, b) && NodesAfter(b, c, e) && Speaks(b, e) && n in c.nodes && e.action.CreateNode?
    ensures NodeFollows(es + [e], n, c.nodes[n])
  {
    hide SameCard, Times, NodeFollows, PolicyFor;
    if n == e.action.node {
      assert Unheard(es, n);
      CreatedFollows(es, e, c.nodes[n]);
    } else {
      MentionedFollows(es, e, n, b.nodes[n], c.nodes[n]);
    }
  }

  lemma AnswerOn(es: seq<Event>, b: State, c: State, e: Event, n: Id)
    requires NodesFollow(es, b) && WorkersFollow(es, b) && NodesAfter(b, c, e) && Speaks(b, e) && n in c.nodes
    requires e.action.SubmitWork?
    ensures NodeFollows(es + [e], n, c.nodes[n])
  {
    assert WorkerFollows(es, e.action.worker, b.workers[e.action.worker]);
    hide SameCard, NodeFollows;
    if n == e.action.message.identifier && !Fenced(es, e.action.worker) {
      AnsweredFollows(es, e, b.nodes[n], c.nodes[n]);
    } else {
      SameCardFollows(es, n, b.nodes[n], c.nodes[n]);
      SilentFollows(es, e, n, c.nodes[n]);
    }
  }

  lemma FailureOn(es: seq<Event>, b: State, c: State, e: Event, n: Id)
    requires NodesFollow(es, b) && WorkersFollow(es, b) && NodesAfter(b, c, e) && Speaks(b, e) && n in c.nodes
    requires e.action.SubmitFailure?
    ensures NodeFollows(es + [e], n, c.nodes[n])
  {
    assert WorkerFollows(es, e.action.worker, b.workers[e.action.worker]);
    SameCardItself(b.nodes[n]);
    hide SameCard, NodeFollows, FailedNode, ClaimsWithout, Retries;
    if n == e.action.message.identifier && !Fenced(es, e.action.worker) {
      FailedFollows(es, e, b.nodes[n]);
    } else {
      SameCardFollows(es, n, b.nodes[n], c.nodes[n]);
      SilentFollows(es, e, n, c.nodes[n]);
    }
  }

  lemma SameCardItself(v: Node)
    ensures SameCard(v, v)
  {
  }

  lemma OtherOn(es: seq<Event>, b: State, c: State, e: Event, n: Id)
    requires NodesFollow(es, b) && NodesAfter(b, c, e) && n in c.nodes
    requires !e.action.CreateNode? && !e.action.SubmitWork? && !e.action.SubmitFailure?
    ensures NodeFollows(es + [e], n, c.nodes[n])
  {
    hide SameCard, NodeFollows;
    if e.action.GetWork? && e.action.job.node == n {
      ClaimedFollows(es, e, b.nodes[n], c.nodes[n]);
    } else {
      assert SameCard(b.nodes[n], c.nodes[n]) by { SameCardItself(b.nodes[n]); }
      SameCardFollows(es, n, b.nodes[n], c.nodes[n]);
      SilentFollows(es, e, n, c.nodes[n]);
    }
  }

  lemma NodesFollowOn(es: seq<Event>, b: State, c: State, e: Event)
    requires NodesFollow(es, b) && WorkersFollow(es, b) && NodesAfter(b, c, e) && Speaks(b, e)
    ensures NodesFollow(es + [e], c)
  {
    hide NodeFollows, Unheard, WorkersFollow, NodesAfter;
    forall n | n !in c.nodes
      ensures Unheard(es + [e], n)
    {
      UnheardOn(es, b, c, e, n);
    }
    forall n | n in c.nodes
      ensures NodeFollows(es + [e], n, c.nodes[n])
    {
      if e.action.CreateNode? {
        CreationOn(es, b, c, e, n);
      } else if e.action.SubmitWork? {
        AnswerOn(es, b, c, e, n);
      } else if e.action.SubmitFailure? {
        FailureOn(es, b, c, e, n);
      } else {
        OtherOn(es, b, c, e, n);
      }
    }
  }

  // ---------------------------------------------------------------- all runs

  lemma EventSpeaks(s: System, e: Event)
    requires SoundSystem(s) && Enabled(s, e)
    ensures Speaks(s.b, e)
    ensures if e.action.CreateInstance? then
              && e.action.instance !in s.b.instances
              && Next(s, e).b.instances == s.b.instances[e.action.instance := |s.b.instances|]
            else Next(s, e).b.instances == s.b.instances
  {
    hide Sound, After, Next, Extends, SameResults;
    NextIsAfter(s, e);
    AfterKeeps(s, e);
    if e.action.CreateInstance? {
      CreatedInstance(s, e);
    }
    if e.action.SubmitWork? || e.action.SubmitFailure? {
      AnswersKnown(s, e);
      KnownNode(s.b, e.action.message);
    }
    hide Describes;
  }

  lemma CreatedInstance(s: System, e: Event)
    requires SoundSystem(s) && Enabled(s, e) && e.action.CreateInstance?
    ensures After(s, e).instances == s.b.instances[e.action.instance := |s.b.instances|]
  {
    hide Sound, Describes;
  }

  ghost predicate Follows(es: seq<Event>, b: State) {
    WorkersFollow(es, b) && InstancesFollow(es, b) && NodesFollow(es, b)
  }

  /**
   * After any run every record of the broker is what the requests say: the workers' lists, last pings and fences, the
   * instances' orders, the nodes' declarations, policies, attempts, tracebacks, results, back-links and time stamps.
   */
  lemma {:induction false} StateFollowsLedger(es: seq<Event>, s: System)
    requires Ends(es, s)
    ensures Follows(es, s.b) && s.clock >= 0
    decreases |es|
  {
    hide Ends, SoundSystem, Enabled, Next, Follows, Steps;
    if es == [] {
      NothingFollows(s);
    } else {
      var init, e := es[..|es| - 1], es[|es| - 1];
      assert es == init + [e];
      var before := EndsBefore(es, s);
      StateFollowsLedger(init, before);
      EventSteps(before, e);
      EventSpeaks(before, e);
      ClockSteps(before, e);
      FollowOn(init, before.b, s.b, e);
    }
  }

  lemma FollowOn(es: seq<Event>, b: State, c: State, e: Event)
    requires Follows(es, b) && Steps(b, c, e) && Speaks(b, e)
    requires if e.action.CreateInstance? then
               e.action.instance !in b.instances && c.instances == b.instances[e.action.instance := |b.instances|]
             else c.instances == b.instances
    ensures Follows(es + [e], c)
  {
    hide WorkersFollow, InstancesFollow, NodesFollow, NodesAfter, WorkersAfter;
    WorkersFollowOn(es, b, c, e);
    InstancesFollowOn(es, b, c, e);
    NodesFollowOn(es, b, c, e);
  }

  lemma NothingFollows(s: System)
    requires Ends([], s)
    ensures Follows([], s.b) && s.clock == 0
  {
  }
}
