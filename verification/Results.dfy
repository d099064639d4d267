/** What disciplined runs guarantee about results, leases, attempts and waiting times. */
module Results {
  import opened Basics
  import opened Retry
  import opened Inspection
  import opened Model
  import opened Safety
  import opened Placement
  import opened Once
  import opened OnceSteps
  import opened OnceTicks
  import opened Runs
  import opened Discipline
  import opened Schedules
  import opened Leases
  import opened Histories

  // ---------------------------------------------------------------- results are final

  /** Completions and their values persist. */
  ghost predicate Final(b: State, c: State) {
    forall n | n in b.nodes && b.nodes[n].completed ::
      n in c.nodes && c.nodes[n].completed && c.nodes[n].resolvedValue == b.nodes[n].resolvedValue
  }

  lemma FinalFromEvent(b: State, c: State)
    requires Extends(b, c) && SameResults(b, c)
    ensures Final(b, c)
  {
  }

  lemma FinalFromAnswer(b: State, c: State, n: Id, value: Obj)
    requires Extends(b, c) && OnlyResult(b, c, n, value) && n in b.nodes && !b.nodes[n].completed
    ensures Final(b, c)
  {
  }

  lemma EventIsFinal(s: System, e: Event)
    requires OnceSystem(s) && Enabled(s, e) && Disciplined(s, e)
    ensures Final(s.b, Next(s, e).b)
  {
    hide OnceSystem, SoundSystem, Sound, OnceEach, Enabled, After, Next, SameResults, OnlyResult, Extends, Final,
         Describes, AllKnown, Graph, JobsFit;
    OnceFacts(s);
    AfterKeeps(s, e);
    NextIsAfter(s, e);
    if e.action.SubmitWork? {
      var w, n := e.action.worker, e.action.message.identifier;
      AnswersKnown(s, e);
      AnswerIsHeld(s, w, n);
      if s.b.workers[w].invalidated {
        FencedAnswerChangesNothing(s, e);
        SameNodesResults(s.b, s.b);
        FinalFromEvent(s.b, s.b);
      } else {
        HeldIsIncomplete(s, w, n);
        SubmitWorkResults(s, e);
        FinalFromAnswer(s.b, After(s, e), n, e.action.value);
      }
    } else {
      FinalFromEvent(s.b, After(s, e));
    }
  }

  lemma HeldIsIncomplete(s: System, w: Id, n: Id)
    requires OnceSystem(s) && Holds(s.b, w, n)
    ensures !s.b.nodes[n].completed
  {
    OnceFacts(s);
    hide OnceSystem, SoundSystem, Graph, JobsFit;
    HeldFacts(s.b, n);
  }

  lemma FinalTransitive(b: State, c: State, d: State)
    requires Final(b, c) && Final(c, d)
    ensures Final(b, d)
  {
  }

  /** A node completes at most once: its value is never overwritten, in any disciplined continuation. */
  lemma {:induction false} ResultsAreFinal(s: System, es: seq<Event>)
    requires OnceSystem(s) && DisciplinedRun(s, es)
    ensures SoundSystem(s) && Run(s, es) && Final(s.b, Exec(s, es).b)
    decreases |es|
  {
    OnceFacts(s);
    hide OnceSystem, SoundSystem, Enabled, Disciplined, Next, OnceEach, Graph, JobsFit, AllKnown;
    DisciplinedIsRun(s, es);
    if es != [] {
      NextKeepsOnce(s, es[0]);
      DisciplinedIsRun(Next(s, es[0]), es[1..]);
      EventIsFinal(s, es[0]);
      ResultsAreFinal(Next(s, es[0]), es[1..]);
      hide Final;
      FinalTransitive(s.b, Next(s, es[0]).b, Exec(Next(s, es[0]), es[1..]).b);
    }
  }

  // ---------------------------------------------------------------- places and leases

  /** At every moment of every run every node is in exactly one place. */
  lemma ExactlyOnePlace(es: seq<Event>, k: nat, n: Id)
    requires Legal(es) && k <= |es|
    ensures var b := At(es, k).b; AllKnown(b) && (n in b.nodes ==> Tally(b, n) == 1)
  {
    hide Legal, At, OnceSystem, SoundSystem, Tally, Graph, JobsFit, FutureFits, Leased, Budgeted, Distinct;
    AtIsOnce(es, k);
    OnceFacts(At(es, k));
  }

  lemma LeasesFit(s: System, w: Id, n: Id)
    requires OnceSystem(s) && w in s.b.workers
    ensures !s.b.workers[w].invalidated ==>
      ((w, n) in s.open <==> n in s.b.nodes && s.b.nodes[n].dequeueWorker == Some(w))
    ensures n in s.b.workers[w].claimedWork <==> n in s.b.nodes && s.b.nodes[n].dequeueWorker == Some(w)
    ensures s.b.workers[w].invalidated ==> !(n in s.b.nodes && s.b.nodes[n].dequeueWorker == Some(w))
  {
    OnceFacts(s);
    OpenFact(s);
    hide OnceSystem, SoundSystem, Graph, JobsFit, Placed, FutureFits, Budgeted, Distinct, AllKnown;
  }

  /**
   * At every moment of every run: for a worker that is not fenced, the nodes handed to it and not yet answered are
   * exactly those whose holder it is; a fenced worker holds nothing.
   */
  lemma LeaseFencing(es: seq<Event>, k: nat, w: Id, n: Id)
    requires Legal(es) && k <= |es| && w in At(es, k).b.workers
    ensures var s := At(es, k);
      var holds := n in s.b.nodes && s.b.nodes[n].dequeueWorker == Some(w);
      && (!s.b.workers[w].invalidated ==> ((w, n) in s.open <==> holds))
      && (n in s.b.workers[w].claimedWork <==> holds) && (s.b.workers[w].invalidated ==> !holds)
  {
    hide Legal, At, OnceSystem;
    AtIsOnce(es, k);
    LeasesFit(At(es, k), w, n);
  }

  /**
   * An accepted answer completes its own node and no other. So completions come in the order of the answers: a node of
   * a later instance completes before one of an earlier instance whenever it is answered first.
   */
  lemma CompletionsFollowAnswers(s: System, e: Event, m: Id)
    requires OnceSystem(s) && Enabled(s, e) && Disciplined(s, e) && e.action.SubmitWork? && m in s.b.nodes
    requires e.action.worker in s.b.workers && !s.b.workers[e.action.worker].invalidated
    ensures m in After(s, e).nodes
    ensures After(s, e).nodes[m].completed <==> s.b.nodes[m].completed || m == e.action.message.identifier
  {
    hide OnceSystem, SoundSystem, Sound, OnceEach, Enabled, Graph, JobsFit, AllKnown, ExecutionDidResolve, Holds;
    var w, n, value := e.action.worker, e.action.message.identifier, e.action.value;
    OnceFacts(s);
    AnswersKnown(s, e);
    AnswerIsHeld(s, w, n);
    ResolvedNodes(s.b, w, n, value, e.now);
  }

  lemma ResolvedNodes(b: State, w: Id, n: Id, value: Obj, now: int)
    requires AllKnown(b) && Graph(b) && OnceEach(b) && Holds(b, w, n)
    ensures DestinationsKnown(b) && ExecutionDidResolve(b, n, value, now).nodes
         == b.nodes[n := Unclaim(b.nodes[n].(resolvedValue := value, completed := true))]
  {
    hide Leased, Budgeted, Distinct, SourcesDone, NotifyAll;
    HeldFacts(b, n);
    SettledKeeps(b, w, n, value);
    DestinationsArePrompt(b, w, n, value);
    SettledShape(b, w, n, value);
    NotifyEffect(Settled(b, n, value), b.nodes[n].destinations, now);
  }

  // ---------------------------------------------------------------- attempts

  /** Failures and policies of other nodes. */
  ghost predicate SameAttempts(b: State, c: State, except: set<Id>) {
    forall n | n in b.nodes && n !in except ::
      n in c.nodes && c.nodes[n].failures == b.nodes[n].failures && c.nodes[n].policy == b.nodes[n].policy
  }

  lemma FailureAttempts(s: System, e: Event)
    requires OnceSystem(s) && Enabled(s, e) && Disciplined(s, e) && e.action.SubmitFailure?
    requires e.action.worker in s.b.workers && !s.b.workers[e.action.worker].invalidated
    ensures var n, c := e.action.message.identifier, After(s, e);
      && SameAttempts(s.b, c, {n}) && n in s.b.nodes && n in c.nodes
      && c.nodes[n].failures == s.b.nodes[n].failures + [e.action.traceback]
      && (Exhausted(c.nodes[n]) <==> |s.b.nodes[n].failures| == Budget(s.b.nodes[n].policy))
      && (Exhausted(c.nodes[n]) || (c.nodes[n].nextRetry >= e.now + 1000 && Job(n, c.nodes[n].nextRetry) in c.future))
  {
    hide OnceSystem, SoundSystem, Sound, OnceEach, Enabled, After, Disciplined;
    FailureEffect(s, e);
    var n := e.action.message.identifier;
    FailBudget(s.b.nodes[n], e.action.traceback, e.action.jitter, e.now);
    hide Wait, Advance, Usable;
  }
}
