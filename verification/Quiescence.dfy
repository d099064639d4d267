/** Nothing gets stuck: when no work is left, whatever is not completed depends on an abandoned node. */
module Quiescence {
  import opened Inspection
  import opened Model
  import opened Safety
  import opened Placement
  import opened Once
  import opened Runs
  import opened Discipline
  import opened Histories

  /** Nothing is ready, delayed or claimed. */
  ghost predicate Quiescent(b: State) {
    && (forall q, j | q in b.queues :: j !in b.queues[q].jobs)
    && (forall j :: j !in b.future)
    && (forall w, n | w in b.workers :: n !in b.workers[w].claimedWork)
  }

  /** The node is abandoned, or one of its sources, at any depth, is. */
  ghost predicate Blocked(b: State, n: Id)
    requires Acyclic(b) && n in b.nodes
    decreases b.nodes[n].rank
  {
    Exhausted(b.nodes[n]) || exists s | s in b.nodes[n].decl.sources :: Blocked(b, s)
  }

  lemma IdleNode(b: State, n: Id)
    requires AllKnown(b) && OnceEach(b) && Quiescent(b) && n in b.nodes
    ensures b.nodes[n].completed || Exhausted(b.nodes[n]) || !SourcesDone(b, n)
  {
  }

  lemma {:induction false} BlockedIsIncomplete(b: State, n: Id)
    requires AllKnown(b) && Acyclic(b) && Due(b) && Placed(b) && n in b.nodes && Blocked(b, n)
    ensures !b.nodes[n].completed
    decreases b.nodes[n].rank
  {
    if Exhausted(b.nodes[n]) {
      assert Tally(b, n) == 1;
      hide SourcesDone, ReadyCount, DelayedCount, Placed, Due;
    } else {
      var s :| s in b.nodes[n].decl.sources && Blocked(b, s);
      BlockedIsIncomplete(b, s);
      hide Blocked, Placed, AllKnown;
    }
  }

  lemma {:induction false} UnblockedCompletes(b: State, n: Id)
    requires AllKnown(b) && Acyclic(b) && OnceEach(b) && Quiescent(b) && n in b.nodes && !Blocked(b, n)
    ensures b.nodes[n].completed
    decreases b.nodes[n].rank
  {
    IdleNode(b, n);
    forall s | s in b.nodes[n].decl.sources
      ensures b.nodes[s].completed
    {
      UnblockedCompletes(b, s);
    }
    hide OnceEach, Quiescent, AllKnown;
  }

  lemma IdleMeansDone(b: State, n: Id)
    requires Sound(b) && AllKnown(b) && Acyclic(b) && OnceEach(b) && Quiescent(b) && n in b.nodes
    ensures b.nodes[n].completed <==> !Blocked(b, n)
  {
    assert Due(b) && Placed(b);
    hide Sound, OnceEach, Quiescent, Blocked, Due, Placed;
    if Blocked(b, n) {
      BlockedIsIncomplete(b, n);
    } else {
      UnblockedCompletes(b, n);
    }
  }

  lemma ReachedFacts(s: System)
    requires OnceSystem(s)
    ensures Sound(s.b) && AllKnown(s.b) && Acyclic(s.b) && Due(s.b) && OnceEach(s.b) && Placed(s.b)
  {
    OnceFacts(s);
    hide Graph, JobsFit, FutureFits, Leased, Budgeted, Distinct, Placed;
  }

  /** In no run does a node complete while one of its sources, at any depth, is abandoned. */
  lemma BlockedNeverCompletes(es: seq<Event>, k: nat, n: Id)
    requires Legal(es) && k <= |es|
    ensures var b := At(es, k).b; Acyclic(b) && (n in b.nodes && Blocked(b, n) ==> !b.nodes[n].completed)
  {
    hide Legal, At, OnceSystem, Sound, Acyclic, Due, OnceEach, Placed, Blocked;
    AtIsOnce(es, k);
    ReachedFacts(At(es, k));
    var b := At(es, k).b;
    if n in b.nodes && Blocked(b, n) {
      BlockedIsIncomplete(b, n);
    }
  }

  /** Quiescence means done, in every run: exactly the nodes without an abandoned transitive source are completed. */
  lemma QuiescenceMeansDone(es: seq<Event>, k: nat, n: Id)
    requires Legal(es) && k <= |es| && Quiescent(At(es, k).b) && n in At(es, k).b.nodes
    ensures var b := At(es, k).b; Acyclic(b) && (b.nodes[n].completed <==> !Blocked(b, n))
  {
    hide Legal, At, OnceSystem, Sound, Acyclic, Due, OnceEach, Placed, Blocked, Quiescent;
    AtIsOnce(es, k);
    ReachedFacts(At(es, k));
    IdleMeansDone(At(es, k).b, n);
  }

  /** A chain of sources from n down to a node that is abandoned. */
  ghost predicate BlockingPath(b: State, n: Id, path: seq<Id>) {
    && path != [] && path[0] == n
    && (forall i | 0 <= i < |path| :: path[i] in b.nodes)
    && (forall i | 0 <= i < |path| - 1 :: path[i + 1] in b.nodes[path[i]].decl.sources)
    && Exhausted(b.nodes[path[|path| - 1]])
  }

  /** Blocked, spelled out as a path. */
  lemma {:induction false} BlockedHasPath(b: State, n: Id) returns (path: seq<Id>)
    requires Acyclic(b) && n in b.nodes && Blocked(b, n)
    ensures BlockingPath(b, n, path)
    decreases b.nodes[n].rank
  {
    if Exhausted(b.nodes[n]) {
      path := [n];
    } else {
      var s :| s in b.nodes[n].decl.sources && Blocked(b, s);
      var rest := BlockedHasPath(b, s);
      path := [n] + rest;
      hide Blocked, Exhausted;
    }
  }
}
