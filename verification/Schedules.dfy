/**
 * Whatever the schedule, a completed node holds the value of evaluating the graph at that node. Nothing is assumed
 * about how many workers there are, how often calls fail, are retried, reclaimed, answered late or answered twice,
 * or about a source being listed more than once; a drain loop that waits for itself forever is a schedule too.
 */
module Schedules {
  import opened Inspection
  import opened Model
  import opened Safety
  import opened SafetyOfSteps
  import opened Runs

  /** What a worker computes from a function name, the arguments as sent and the values of the sources. */
  type Code = (string, Obj, map<Id, Obj>) -> Obj

  // ---------------------------------------------------------------- evaluation of the graph

  ghost function Eval(f: Code, b: State, n: Id): Obj
    requires Acyclic(b) && n in b.nodes
    decreases b.nodes[n].rank
  {
    f(b.nodes[n].decl.functionName, b.nodes[n].decl.arguments, map s | s in b.nodes[n].decl.sources :: Eval(f, b, s))
  }

  ghost function Inputs(f: Code, b: State, n: Id): map<Id, Obj>
    requires Acyclic(b) && n in b.nodes
  {
    map s | s in b.nodes[n].decl.sources :: Eval(f, b, s)
  }

  /** Evaluation only looks at declarations, so it survives every event. */
  lemma {:induction false} EvalStable(f: Code, b: State, c: State, n: Id)
    requires Acyclic(b) && Acyclic(c) && Extends(b, c) && n in b.nodes
    ensures Eval(f, c, n) == Eval(f, b, n)
    decreases b.nodes[n].rank
  {
    InputsStable(f, b, c, n);
  }

  lemma {:induction false} InputsStable(f: Code, b: State, c: State, n: Id)
    requires Acyclic(b) && Acyclic(c) && Extends(b, c) && n in b.nodes
    ensures Inputs(f, c, n) == Inputs(f, b, n)
    decreases b.nodes[n].rank, 0
  {
    forall s | s in b.nodes[n].decl.sources
      ensures Eval(f, c, s) == Eval(f, b, s)
    {
      EvalStable(f, b, c, s);
    }
  }

  // ---------------------------------------------------------------- honest workers

  /** A worker answers with what the code gives on the message it was sent; failures need not be honest. */
  ghost predicate Honest(f: Code, e: Event) {
    e.action.SubmitWork? ==>
      var m := e.action.message;
      e.action.value == f(m.functionName, m.arguments, SourceValues(m.sources))
  }

  /** Completed nodes and messages in flight carry evaluated values. */
  ghost predicate Valued(f: Code, s: System)
    requires SoundSystem(s)
  {
    && (forall n | n in s.b.nodes && s.b.nodes[n].completed :: s.b.nodes[n].resolvedValue == Eval(f, s.b, n))
    && (forall w, m | (w, m) in s.sent :: SourceValues(m.sources) == Inputs(f, s.b, m.identifier))
  }

  /** The dictionary a worker builds from the message of n holds the sources' values. */
  lemma {:induction false} SourceValuesAre(b: State, sources: seq<Id>)
    requires forall s | s in sources :: s in b.nodes
    ensures SourceValues(SourceMessages(b, sources)) == map s | s in sources :: b.nodes[s].resolvedValue
  {
    if sources != [] {
      var init, last := sources[..|sources| - 1], sources[|sources| - 1];
      SourceValuesAre(b, init);
      var ms := SourceMessages(b, sources);
      assert ms[..|ms| - 1] == SourceMessages(b, init);
      assert sources == init + [last];
    }
  }

  lemma MessageValued(f: Code, b: State, n: Id)
    requires Acyclic(b) && n in b.nodes && SourcesDone(b, n)
    requires forall m | m in b.nodes && b.nodes[m].completed :: b.nodes[m].resolvedValue == Eval(f, b, m)
    ensures SourcesKnown(b) && SourceValues(NodeToMessage(b, n).sources) == Inputs(f, b, n)
  {
    SourceValuesAre(b, b.nodes[n].decl.sources);
  }

  lemma SoundIsAcyclic(s: System)
    requires SoundSystem(s)
    ensures Acyclic(s.b)
  {
  }

  lemma HonestResults(f: Code, s: System, e: Event, n: Id)
    requires SoundSystem(s) && Enabled(s, e) && Valued(f, s) && Honest(f, e)
    requires n in After(s, e).nodes && After(s, e).nodes[n].completed
    ensures Acyclic(After(s, e)) && After(s, e).nodes[n].resolvedValue == Eval(f, After(s, e), n)
  {
    hide SoundSystem, Enabled, After, Eval, Sound;
    AfterKeeps(s, e);
    NextKeepsSound(s, e);
    NextIsAfter(s, e);
    SoundIsAcyclic(s);
    SoundIsAcyclic(Next(s, e));
    var c := After(s, e);
    if n in s.b.nodes && s.b.nodes[n].completed && c.nodes[n].resolvedValue == s.b.nodes[n].resolvedValue {
      EvalStable(f, s.b, c, n);
    } else {
      SubmittedResult(f, s, e, n);
    }
  }

  lemma SubmitWorkResults(s: System, e: Event)
    requires SoundSystem(s) && Enabled(s, e) && e.action.SubmitWork?
    ensures OnlyResult(s.b, After(s, e), e.action.message.identifier, e.action.value)
  {
    hide SoundSystem, Enabled, Sound, OnlyResult, ExecutionDidResolve;
    SystemFacts(s);
    SoundBasics(s.b);
    AnswersKnown(s, e);
    var n := e.action.message.identifier;
    ResolveResults(s.b, n, e.action.value, e.now);
    SameIsOnly(s.b, n, e.action.value);
  }

  lemma SameIsOnly(b: State, n: Id, value: Obj)
    ensures OnlyResult(b, b, n, value)
  {
  }

  lemma AnsweredMessage(f: Code, s: System, e: Event)
    requires SoundSystem(s) && Enabled(s, e) && Valued(f, s) && e.action.SubmitWork?
    ensures var m := e.action.message;
      && m.identifier in s.b.nodes && Acyclic(s.b)
      && m.functionName == s.b.nodes[m.identifier].decl.functionName
      && m.arguments == s.b.nodes[m.identifier].decl.arguments
      && SourceValues(m.sources) == Inputs(f, s.b, m.identifier)
  {
  }

  lemma SubmittedResult(f: Code, s: System, e: Event, n: Id)
    requires SoundSystem(s) && Enabled(s, e) && Valued(f, s) && Honest(f, e)
    requires n in After(s, e).nodes && After(s, e).nodes[n].completed
    requires !(n in s.b.nodes && s.b.nodes[n].completed
               && After(s, e).nodes[n].resolvedValue == s.b.nodes[n].resolvedValue)
    ensures Acyclic(After(s, e)) && After(s, e).nodes[n].resolvedValue == Eval(f, After(s, e), n)
  {
    hide SoundSystem, Enabled, After, Sound, Valued;
    AfterKeeps(s, e);
    NextKeepsSound(s, e);
    NextIsAfter(s, e);
    SoundIsAcyclic(s);
    SoundIsAcyclic(Next(s, e));
    SubmitWorkResults(s, e);
    AnsweredMessage(f, s, e);
    EvalStable(f, s.b, After(s, e), n);
  }

  lemma HonestMessages(f: Code, s: System, e: Event, w: Id, m: NodeMessage)
    requires SoundSystem(s) && Enabled(s, e) && Valued(f, s) && Honest(f, e)
    requires (w, m) in Next(s, e).sent
    ensures Acyclic(After(s, e)) && m.identifier in After(s, e).nodes
    ensures SourceValues(m.sources) == Inputs(f, After(s, e), m.identifier)
  {
    AfterKeeps(s, e);
    NextKeepsSound(s, e);
    NextIsAfter(s, e);
    SoundIsAcyclic(s);
    SoundIsAcyclic(Next(s, e));
    NextKeepsMessages(s, e, w, m);
    var c := After(s, e);
    if (w, m) in s.sent {
      SentDescribes(s, w, m);
      InputsStable(f, s.b, c, m.identifier);
      hide SoundSystem, Enabled, After, Sound, Eval, Describes;
    } else {
      hide SoundSystem, Sound, Eval, Valued, After;
      MessageIsCurrent(s, e, w, m);
      forall n | n in c.nodes && c.nodes[n].completed
        ensures c.nodes[n].resolvedValue == Eval(f, c, n)
      {
        HonestResults(f, s, e, n);
      }
      MessageValued(f, c, m.identifier);
    }
  }

  lemma SentDescribes(s: System, w: Id, m: NodeMessage)
    requires SoundSystem(s) && (w, m) in s.sent
    ensures Describes(s.b, m)
  {
  }

  lemma MessageIsCurrent(s: System, e: Event, w: Id, m: NodeMessage)
    requires SoundSystem(s) && Enabled(s, e) && (w, m) in Next(s, e).sent && (w, m) !in s.sent
    ensures SourcesKnown(After(s, e)) && m.identifier in After(s, e).nodes
    ensures m == NodeToMessage(After(s, e), m.identifier)
  {
    hide SoundSystem, Enabled, After, Sound;
    NextKeepsMessages(s, e, w, m);
    NextKeepsSound(s, e);
    NextIsAfter(s, e);
    SystemFacts(Next(s, e));
    SoundBasics(Next(s, e).b);
  }

  lemma HonestStep(f: Code, s: System, e: Event)
    requires SoundSystem(s) && Enabled(s, e) && Valued(f, s) && Honest(f, e)
    ensures SoundSystem(Next(s, e)) && Valued(f, Next(s, e))
  {
    hide SoundSystem, Enabled, After, Next, Eval, Inputs, Honest, Sound;
    NextKeepsSound(s, e);
    NextIsAfter(s, e);
    var t := Next(s, e);
    SoundIsAcyclic(t);
    forall n | n in t.b.nodes && t.b.nodes[n].completed
      ensures t.b.nodes[n].resolvedValue == Eval(f, t.b, n)
    {
      HonestResults(f, s, e, n);
    }
    forall w, m | (w, m) in t.sent
      ensures m.identifier in t.b.nodes && SourceValues(m.sources) == Inputs(f, t.b, m.identifier)
    {
      HonestMessages(f, s, e, w, m);
    }
  }

  // ---------------------------------------------------------------- whole runs

  /** The events can happen one after the other. */
  ghost predicate Run(s: System, es: seq<Event>)
    requires SoundSystem(s)
    decreases |es|
  {
    es == [] || (Enabled(s, es[0]) && (NextKeepsSound(s, es[0]); Run(Next(s, es[0]), es[1..])))
  }

  ghost function Exec(s: System, es: seq<Event>): (t: System)
    requires SoundSystem(s) && Run(s, es)
    ensures SoundSystem(t)
    decreases |es|
  {
    if es == [] then s
    else
      NextKeepsSound(s, es[0]);
      Exec(Next(s, es[0]), es[1..])
  }

  lemma StartIsSound()
    ensures SoundSystem(START)
  {
    EmptyIsSound();
  }

  lemma {:induction false} RunKeepsValued(f: Code, s: System, es: seq<Event>)
    requires SoundSystem(s) && Run(s, es) && Valued(f, s)
    requires forall e | e in es :: Honest(f, e)
    ensures Valued(f, Exec(s, es))
    decreases |es|
  {
    hide SoundSystem, Enabled, Next, Valued, Honest;
    if es != [] {
      HonestStep(f, s, es[0]);
      RunKeepsValued(f, Next(s, es[0]), es[1..]);
    }
  }

  /**
   * Schedule independence: after any run from the empty broker with honest workers, every completed node holds the
   * value of the recursive evaluation of the graph at that node.
   */
  lemma ScheduleIndependence(f: Code, es: seq<Event>)
    requires SoundSystem(START) && Run(START, es)
    requires forall e | e in es :: Honest(f, e)
    ensures var b := Exec(START, es).b;
      Acyclic(b) && forall n | n in b.nodes && b.nodes[n].completed :: b.nodes[n].resolvedValue == Eval(f, b, n)
  {
    hide SoundSystem, Run, Honest, Eval;
    assert Valued(f, START);
    RunKeepsValued(f, START, es);
    SoundIsAcyclic(Exec(START, es));
    hide Exec;
  }

  /** Two runs that declare the same nodes agree on every result that both have. */
  lemma TwoSchedulesAgree(f: Code, es: seq<Event>, gs: seq<Event>, n: Id)
    requires SoundSystem(START) && Run(START, es) && Run(START, gs)
    requires forall e | e in es :: Honest(f, e)
    requires forall e | e in gs :: Honest(f, e)
    requires var b, c := Exec(START, es).b, Exec(START, gs).b;
      && (forall m | m in b.nodes :: m in c.nodes && c.nodes[m].decl == b.nodes[m].decl)
      && n in b.nodes && b.nodes[n].completed && c.nodes[n].completed
    ensures Exec(START, es).b.nodes[n].resolvedValue == Exec(START, gs).b.nodes[n].resolvedValue
  {
    hide Eval, SoundSystem, Run, Honest, Exec;
    ScheduleIndependence(f, es);
    ScheduleIndependence(f, gs);
    EvalDecls(f, Exec(START, es).b, Exec(START, gs).b, n);
  }

  /** Evaluation depends on declarations only, not on the order of creation. */
  lemma {:induction false} EvalDecls(f: Code, b: State, c: State, n: Id)
    requires Acyclic(b) && Acyclic(c) && n in b.nodes
    requires forall m | m in b.nodes :: m in c.nodes && c.nodes[m].decl == b.nodes[m].decl
    ensures Eval(f, c, n) == Eval(f, b, n)
    decreases b.nodes[n].rank
  {
    forall s | s in b.nodes[n].decl.sources
      ensures Eval(f, c, s) == Eval(f, b, s)
    {
      EvalDecls(f, b, c, s);
    }
    assert Inputs(f, c, n) == Inputs(f, b, n);
  }

  // ---------------------------------------------------------------- runs, one event longer

  /** The events are a run from the empty broker to s. */
  ghost predicate Ends(es: seq<Event>, s: System) {
    StartIsSound();
    Run(START, es) && Exec(START, es) == s
  }

  lemma {:induction false} RunFurther(s: System, es: seq<Event>, e: Event)
    requires SoundSystem(s) && Run(s, es) && Enabled(Exec(s, es), e)
    ensures Run(s, es + [e]) && Exec(s, es + [e]) == Next(Exec(s, es), e)
    decreases |es|
  {
    hide SoundSystem, Enabled, Next;
    if es == [] {
      NextKeepsSound(s, e);
      assert [e][1..] == [];
    } else {
      NextKeepsSound(s, es[0]);
      RunFurther(Next(s, es[0]), es[1..], e);
      assert (es + [e])[1..] == es[1..] + [e];
    }
  }

  lemma EndsFurther(es: seq<Event>, s: System, e: Event)
    requires SoundSystem(s) && Ends(es, s) && Enabled(s, e)
    ensures SoundSystem(Next(s, e)) && Ends(es + [e], Next(s, e))
  {
    hide SoundSystem, Enabled, Next, Run, Exec;
    StartIsSound();
    RunFurther(START, es, e);
    NextKeepsSound(s, e);
  }

  /** The last event of a run. */
  lemma {:induction false} RunUnsnoc(s: System, es: seq<Event>)
    requires SoundSystem(s) && Run(s, es) && es != []
    ensures var init, e := es[..|es| - 1], es[|es| - 1];
      Run(s, init) && Enabled(Exec(s, init), e) && Exec(s, es) == Next(Exec(s, init), e)
    decreases |es|
  {
    hide SoundSystem, Enabled, Next;
    NextKeepsSound(s, es[0]);
    if |es| == 1 {
      assert es[1..] == [] && es[..0] == [];
    } else {
      RunUnsnoc(Next(s, es[0]), es[1..]);
      assert es[1..][..|es| - 2] == es[..|es| - 1][1..];
    }
  }

  lemma EndsBefore(es: seq<Event>, s: System) returns (before: System)
    requires Ends(es, s) && es != []
    ensures SoundSystem(before) && SoundSystem(s) && Ends(es[..|es| - 1], before)
    ensures Enabled(before, es[|es| - 1]) && s == Next(before, es[|es| - 1])
  {
    hide SoundSystem, Enabled, Next, Run, Exec;
    StartIsSound();
    RunUnsnoc(START, es);
    before := Exec(START, es[..|es| - 1]);
  }

  lemma EndsIsSound(es: seq<Event>, s: System)
    requires Ends(es, s)
    ensures SoundSystem(s)
  {
    StartIsSound();
    hide SoundSystem, Run;
  }
}
