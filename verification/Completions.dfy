/**
 * When nodes complete: exactly when their answers are accepted. So nodes of an earlier instance complete before those
 * of a later one exactly if they are answered before them.
 */
module Completions {
  import opened Inspection
  import opened Model
  import opened Safety
  import opened Runs
  import opened Discipline
  import opened Leases
  import opened Results
  import opened Histories
  import opened Scenarios

  // ---------------------------------------------------------------- completed means answered

  ghost predicate Done(b: State, n: Id) {
    n in b.nodes && b.nodes[n].completed
  }

  lemma OthersComplete(b: State, c: State, n: Id)
    requires Extends(b, c) && SameResults(b, c)
    ensures Done(c, n) <==> Done(b, n)
  {
  }

  lemma EventCompletes(s: System, e: Event, n: Id)
    requires OnceSystem(s) && Enabled(s, e) && Disciplined(s, e)
    ensures Done(Next(s, e).b, n) <==> Done(s.b, n) || AnswersNow(s, e, n)
  {
    hide OnceSystem, SoundSystem, Sound, Enabled, Disciplined, After, Next, Extends, SameResults, Describes;
    OnceFacts(s);
    NextIsAfter(s, e);
    AfterKeeps(s, e);
    if e.action.SubmitWork? {
      AnswersKnown(s, e);
      KnownMessage(s.b, e.action.message);
      if s.b.workers[e.action.worker].invalidated {
        FencedAnswerChangesNothing(s, e);
      } else if n in s.b.nodes {
        CompletionsFollowAnswers(s, e, n);
      }
    } else {
      OthersComplete(s.b, After(s, e), n);
    }
  }

  /** The k-th event of the run is an accepted answer for n. */
  ghost predicate Answered(es: seq<Event>, k: nat, n: Id)
    requires Legal(es)
  {
    k < |es| && AnswersNow(At(es, k), es[k], n)
  }

  /** A node is completed, at any moment of any run, if and only if an answer for it has been accepted before. */
  lemma {:induction false} CompletedIffAnswered(es: seq<Event>, k: nat, n: Id)
    requires Legal(es) && k <= |es|
    ensures Done(At(es, k).b, n) <==> exists i: nat :: i < k && Answered(es, i, n)
  {
    hide OnceSystem, SoundSystem, Enabled, Disciplined, Next, Legal, At, AnswersNow;
    if k == 0 {
      Beginning(es);
    } else {
      CompletedIffAnswered(es, k - 1, n);
      Moment(es, k - 1);
      EventCompletes(At(es, k - 1), es[k - 1], n);
      assert Answered(es, k - 1, n) <==> AnswersNow(At(es, k - 1), es[k - 1], n);
      hide Answered, Done;
    }
  }

  /** Between two moments: an incomplete node completes if and only if an answer for it is accepted in between. */
  lemma CompletesIffAnswered(es: seq<Event>, j: nat, k: nat, n: Id)
    requires Legal(es) && j <= k <= |es| && n in At(es, j).b.nodes && !At(es, j).b.nodes[n].completed
    ensures Done(At(es, k).b, n) <==> exists i: nat :: j <= i < k && Answered(es, i, n)
  {
    hide OnceSystem, Legal, At, Answered;
    CompletedIffAnswered(es, j, n);
    CompletedIffAnswered(es, k, n);
  }

  // ---------------------------------------------------------------- the order of instances

  /** At the end m belongs to an earlier instance than n. */
  ghost predicate Earlier(es: seq<Event>, m: Id, n: Id)
    requires Legal(es)
  {
    var b := At(es, |es|).b;
    && m in b.nodes && n in b.nodes
    && b.nodes[m].decl.instance in b.instances && b.nodes[n].decl.instance in b.instances
    && b.instances[b.nodes[m].decl.instance] < b.instances[b.nodes[n].decl.instance]
  }

  /** No node is ever completed before all nodes of the earlier instances are. */
  ghost predicate CompletesInOrder(es: seq<Event>)
    requires Legal(es)
  {
    forall k: nat, m, n | k <= |es| && Earlier(es, m, n) && Done(At(es, k).b, n) :: Done(At(es, k).b, m)
  }

  /** No answer is accepted before the answers for all nodes of the earlier instances have been. */
  ghost predicate AnsweredInOrder(es: seq<Event>)
    requires Legal(es)
  {
    forall k: nat, m, n | Earlier(es, m, n) && Answered(es, k, n) :: exists i: nat :: i < k && Answered(es, i, m)
  }

  /**
   * The documentation wants earlier instances completed before later ones. The broker orders what it hands out, not
   * what it completes: instances complete in order if and only if their answers are accepted in order.
   */
  lemma InstanceOrderIffAnswerOrder(es: seq<Event>)
    requires Legal(es)
    ensures CompletesInOrder(es) <==> AnsweredInOrder(es)
  {
    hide OnceSystem, Legal, At, AnswersNow, Earlier, Done;
    if CompletesInOrder(es) {
      forall k: nat, m, n | Earlier(es, m, n) && Answered(es, k, n)
        ensures exists i: nat :: i < k && Answered(es, i, m)
      {
        CompletedIffAnswered(es, k + 1, n);
        assert Done(At(es, k + 1).b, m);
        CompletedIffAnswered(es, k + 1, m);
        NotBoth(es, k, m, n);
      }
    }
    if AnsweredInOrder(es) {
      forall k: nat, m, n | k <= |es| && Earlier(es, m, n) && Done(At(es, k).b, n)
        ensures Done(At(es, k).b, m)
      {
        CompletedIffAnswered(es, k, n);
        CompletedIffAnswered(es, k, m);
      }
    }
  }

  lemma NotBoth(es: seq<Event>, k: nat, m: Id, n: Id)
    requires Legal(es) && Earlier(es, m, n)
    ensures !(Answered(es, k, m) && Answered(es, k, n))
  {
    hide OnceSystem, Legal, At;
  }

  /** A run in which node c of the second instance is completed while node a of the first is not. */
  lemma LaterInstanceMayFinishFirst() returns (es: seq<Event>)
    ensures Legal(es) && Earlier(es, "a", "c")
    ensures Done(At(es, |es|).b, "c") && !Done(At(es, |es|).b, "a") && !CompletesInOrder(es)
  {
    hide OnceSystem, SoundSystem, Enabled, Disciplined, Next, Done, BothHeld, Leads, Earlier, Legal, At;
    var fs, s, m := LaterAnsweredFirst(NO_VALUE);
    var e := Event(0, SubmitWork("v", m, NO_VALUE));
    var t;
    es, t := Further(fs, s, e);
    EventCompletes(s, e, "a");
    EventCompletes(s, e, "c");
    NextIsAfter(s, e);
    AfterKeeps(s, e);
    BothHeldFacts();
    LeadsTo(es, t);
    OrdersStay(es, BothHeld());
  }

  lemma LeadsTo(es: seq<Event>, s: System)
    requires Leads(es, s)
    ensures Legal(es) && At(es, |es|) == s
  {
    hide OnceSystem;
  }

  lemma BothHeldFacts()
    ensures var b := BothHeld();
      && Free(b, "v") && !Done(b, "a") && !Done(b, "c") && AllKnown(b) && "a" in b.nodes && "c" in b.nodes
      && Order(b, "a") < Order(b, "c") && "a" != "c"
  {
    assert "a" != "c" by { assert "a"[0] != "c"[0]; }
    assert "i" != "j" by { assert "i"[0] != "j"[0]; }
  }

  lemma OrdersStay(es: seq<Event>, b: State)
    requires Legal(es) && AllKnown(b) && "a" in b.nodes && "c" in b.nodes && Order(b, "a") < Order(b, "c")
    requires Extends(b, At(es, |es|).b) && At(es, |es|).b.instances == b.instances
    ensures Earlier(es, "a", "c")
  {
    hide Legal, At, OnceSystem;
    AtIsOnce(es, |es|);
    OnceFacts(At(es, |es|));
  }
}
