/**
 * The client's side: a plain Python program as a list of calls whose arguments may hold promises of earlier calls, what
 * the decorator sends for each call (dagorama/decorators.py), what a worker computes from a message
 * (dagorama/runner.py), and the claim of the README: the results are those of the plain program.
 */
module Client {
  import opened Basics
  import opened Inspection
  import opened Retry
  import M = Model
  import S = Server
  import Safety
  import opened Runs
  import opened Schedules

  /** The user's functions: a name and actual arguments give a result. */
  type Functions = (string, Obj) -> Obj

  /** One decorated call; its positional and keyword arguments together are one nested value. */
  datatype Call = Call(identifier: Id, functionName: string, arguments: Obj)

  // ---------------------------------------------------------------- the plain program

  /** Run the calls one after the other, every promise standing for the result of its call. */
  function Plain(g: Functions, calls: seq<Call>): map<Id, Obj> {
    if calls == [] then map[]
    else
      var before, call := Plain(g, calls[..|calls| - 1]), calls[|calls| - 1];
      before[call.identifier := g(call.functionName, Substitute(call.arguments, Lookup(before)))]
  }

  /** Identifiers are new, and promises come from earlier calls. */
  ghost predicate WellScoped(calls: seq<Call>) {
    calls == [] ||
      var before, call := calls[..|calls| - 1], calls[|calls| - 1];
      && WellScoped(before)
      && (forall c | c in before :: c.identifier != call.identifier)
      && forall p | p in Promises(call.arguments) :: exists c :: c in before && c.identifier == p.identifier
  }

  // ---------------------------------------------------------------- what is sent, what is computed

  /** The declaration of a call: its sources are the promises found, its arguments their identifiers. */
  ghost predicate Queued(call: Call, decl: M.Decl) {
    && decl.functionName == call.functionName && decl.sources == Ids(Promises(call.arguments))
    && ExtractPromiseIdentifiers(call.arguments) == Ok(decl.arguments)
  }

  /** The request that is sent for a call. */
  ghost predicate Requests(call: Call, m: S.NodeConfiguration) {
    && m.identifier == call.identifier && m.functionName == call.functionName
    && m.sourceIds == Ids(Promises(call.arguments)) && ExtractPromiseIdentifiers(call.arguments) == Ok(m.arguments)
  }

  /** The decorator's part of a call; extraction never raises. */
  method Queue(call: Call, functionHash: string, queueName: string, taintName: string, instance: Id,
               retry: Option<RetryMessage>)
    returns (m: S.NodeConfiguration)
    ensures Requests(call, m) && m.instanceId == instance && m.functionHash == functionHash && m.retry == retry
    ensures m.taintName == taintName && m.queueName == if queueName == "" then call.functionName else queueName
  {
    var promises := FindPromises(call.arguments);
    ExtractKeepsMeaning(call.arguments, Lookup(map[]));
    var simplified := ExtractPromiseIdentifiers(call.arguments).value;
    m := S.NodeConfiguration(call.identifier, call.functionName, functionHash,
                             if queueName == "" then call.functionName else queueName, taintName, simplified,
                             Ids(promises), instance, retry);
  }

  /** A worker resolves the promises with the values it was sent and calls the function. */
  function Work(g: Functions): Code {
    (name: string, arguments: Obj, resolved: map<Id, Obj>) =>
      match ResolvePromises(arguments, resolved)
      case Ok(actual) => g(name, actual)
      case Err(_) => M.NO_VALUE
  }

  /** Two valuations that agree on the promises of a value substitute the same. */
  lemma {:induction false} SubstituteAgrees(o: Obj, v: Id -> Obj, w: Id -> Obj)
    requires forall p | p in Promises(o) :: v(p.identifier) == w(p.identifier)
    ensures Substitute(o, v) == Substitute(o, w)
    decreases o, 1
  {
    match o
    case Raw(_) =>
    case Promised(p) => assert p in Promises(o);
    case PyList(items) => ItemsAgree(items, v, w);
    case PyTuple(items) => ItemsAgree(items, v, w);
    case PySet(items) => ItemsAgree(items, v, w);
    case PyDict(entries) => EntriesAgree(entries, v, w);
  }

  lemma {:induction false} ItemsAgree(items: seq<Obj>, v: Id -> Obj, w: Id -> Obj)
    requires forall p | p in PromisesIn(items) :: v(p.identifier) == w(p.identifier)
    ensures SubstituteItems(items, v) == SubstituteItems(items, w)
    decreases items, 0
  {
    if items != [] {
      SubstituteAgrees(items[0], v, w);
      ItemsAgree(items[1..], v, w);
    }
  }

  lemma {:induction false} EntriesAgree(entries: seq<Entry>, v: Id -> Obj, w: Id -> Obj)
    requires forall p | p in PromisesUnder(entries) :: v(p.identifier) == w(p.identifier)
    ensures SubstituteEntries(entries, v) == SubstituteEntries(entries, w)
    decreases entries, 0
  {
    if entries != [] {
      SubstituteAgrees(entries[0].value, v, w);
      EntriesAgree(entries[1..], v, w);
    }
  }

  /**
   * A worker that got a value for each source never meets an unexpected promise, and passes the function exactly
   * what the caller's own arguments mean under those values.
   */
  lemma WorkIsTheCall(g: Functions, call: Call, decl: M.Decl, values: map<Id, Obj>)
    requires Queued(call, decl) && forall s | s in decl.sources :: s in values
    ensures ResolvePromises(decl.arguments, values).Ok?
    ensures Work(g)(decl.functionName, decl.arguments, values)
         == g(call.functionName, Substitute(call.arguments, Lookup(values)))
  {
    ResolveAfterExtract(call.arguments, values);
    ResolveIsSubstitution(call.arguments, values);
    CoversByIds(values, Promises(call.arguments));
  }

  // ---------------------------------------------------------------- the graph of the program

  /** The calls before the one at k. */
  lemma {:induction false} PlainAt(g: Functions, calls: seq<Call>, k: nat)
    requires WellScoped(calls) && k < |calls|
    ensures WellScoped(calls[..k])
    ensures forall p | p in Promises(calls[k].arguments) ::
              exists j :: 0 <= j < k && calls[j].identifier == p.identifier
    ensures calls[k].identifier in Plain(g, calls) && Plain(g, calls)[calls[k].identifier]
         == g(calls[k].functionName, Substitute(calls[k].arguments, Lookup(Plain(g, calls[..k]))))
    ensures forall n | n in Plain(g, calls[..k]) ::
              n in Plain(g, calls) && Plain(g, calls)[n] == Plain(g, calls[..k])[n]
  {
    var before, last := calls[..|calls| - 1], calls[|calls| - 1];
    PlainKeys(g, before);
    if k < |calls| - 1 {
      PlainAt(g, before, k);
      assert before[..k] == calls[..k] && calls[k] in before;
    } else {
      forall p | p in Promises(last.arguments)
        ensures exists j :: 0 <= j < k && calls[j].identifier == p.identifier
      {
        var c :| c in before && c.identifier == p.identifier;
        var j :| 0 <= j < |before| && before[j] == c;
        assert calls[j].identifier == p.identifier;
      }
    }
  }

  lemma {:induction false} PlainKeys(g: Functions, calls: seq<Call>)
    ensures forall n :: n in Plain(g, calls) <==> exists c :: c in calls && c.identifier == n
  {
    if calls != [] {
      PlainKeys(g, calls[..|calls| - 1]);
      assert calls == calls[..|calls| - 1] + [calls[|calls| - 1]];
    }
  }

  /** Every node was created for a call of the program. */
  ghost predicate FromProgram(calls: seq<Call>, b: M.State) {
    forall n | n in b.nodes ::
      exists k :: 0 <= k < |calls| && calls[k].identifier == n && Queued(calls[k], b.nodes[n].decl)
  }

  /** Evaluating the graph with the workers' code is running the plain program. */
  lemma {:induction false} EvalIsPlain(g: Functions, calls: seq<Call>, b: M.State, k: nat)
    requires WellScoped(calls) && Safety.Acyclic(b) && k < |calls| && calls[k].identifier in b.nodes
    requires FromProgram(calls, b)
    ensures calls[k].identifier in Plain(g, calls)
    ensures Eval(Work(g), b, calls[k].identifier) == Plain(g, calls)[calls[k].identifier]
    decreases k, 1
  {
    hide Plain, WellScoped, Safety.Acyclic, FromProgram;
    var n, call := calls[k].identifier, calls[k];
    CallOf(calls, b, k);
    InputsArePlain(g, calls, b, k);
    PlainAt(g, calls, k);
    var values := Inputs(Work(g), b, n);
    SubstituteAgrees(call.arguments, Lookup(values), Lookup(Plain(g, calls[..k])));
    WorkIsTheCall(g, call, b.nodes[n].decl, values);
    hide Queued, Work, Substitute;
  }

  /** The values a worker gets for the promises of a call are those of the plain program. */
  lemma {:induction false} InputsArePlain(g: Functions, calls: seq<Call>, b: M.State, k: nat)
    requires WellScoped(calls) && Safety.Acyclic(b) && k < |calls| && calls[k].identifier in b.nodes
    requires FromProgram(calls, b)
    ensures forall p | p in Promises(calls[k].arguments) ::
      Lookup(Inputs(Work(g), b, calls[k].identifier))(p.identifier) == Lookup(Plain(g, calls[..k]))(p.identifier)
    decreases k, 0
  {
    hide Plain, WellScoped, FromProgram, Work, Eval;
    var n, call := calls[k].identifier, calls[k];
    CallOf(calls, b, k);
    PlainAt(g, calls, k);
    PlainKeys(g, calls[..k]);
    forall p | p in Promises(call.arguments)
      ensures Lookup(Inputs(Work(g), b, n))(p.identifier) == Lookup(Plain(g, calls[..k]))(p.identifier)
    {
      IdsMember(Promises(call.arguments), p.identifier);
      var j :| 0 <= j < k && calls[j].identifier == p.identifier;
      assert calls[..k][j] in calls[..k];
      EvalIsPlain(g, calls, b, j);
    }
  }

  lemma CallOf(calls: seq<Call>, b: M.State, k: nat)
    requires WellScoped(calls) && k < |calls| && calls[k].identifier in b.nodes && FromProgram(calls, b)
    ensures Queued(calls[k], b.nodes[calls[k].identifier].decl)
  {
    var j :| 0 <= j < |calls| && calls[j].identifier == calls[k].identifier
      && Queued(calls[j], b.nodes[calls[k].identifier].decl);
    DistinctCalls(calls, j, k);
  }

  lemma {:induction false} DistinctCalls(calls: seq<Call>, j: nat, k: nat)
    requires WellScoped(calls) && j < |calls| && k < |calls|
    ensures calls[j].identifier == calls[k].identifier ==> j == k
  {
    var before := calls[..|calls| - 1];
    if j < |before| && k < |before| {
      DistinctCalls(before, j, k);
    } else if j != k {
      assert calls[if j < k then j else k] in before;
    }
  }

  // ---------------------------------------------------------------- over runs

  /** The client creates nodes for calls of the program only. */
  ghost predicate OfProgram(calls: seq<Call>, e: Event) {
    e.action.CreateNode? ==>
      exists k :: 0 <= k < |calls| && calls[k].identifier == e.action.node && Queued(calls[k], e.action.decl)
  }

  lemma StepKeepsProgram(calls: seq<Call>, s: System, e: Event)
    requires SoundSystem(s) && Enabled(s, e) && FromProgram(calls, s.b) && OfProgram(calls, e)
    ensures FromProgram(calls, Next(s, e).b)
  {
    hide SoundSystem, Enabled, After, Next, Queued, Safety.Sound, SameResults;
    NextIsAfter(s, e);
    AfterKeeps(s, e);
    if e.action.CreateNode? {
      CreatedDecl(s, e);
    }
  }

  lemma {:induction false} RunKeepsProgram(calls: seq<Call>, s: System, es: seq<Event>)
    requires SoundSystem(s) && Run(s, es) && FromProgram(calls, s.b) && forall e | e in es :: OfProgram(calls, e)
    ensures FromProgram(calls, Exec(s, es).b)
    decreases |es|
  {
    hide SoundSystem, Enabled, Next, FromProgram, OfProgram;
    if es != [] {
      NextKeepsSound(s, es[0]);
      StepKeepsProgram(calls, s, es[0]);
      RunKeepsProgram(calls, Next(s, es[0]), es[1..]);
    }
  }

  /**
   * Distributed execution gives the same results as vanilla Python: whatever the schedule, the number of workers, the
   * failures, retries, reclaims, late and repeated answers, a completed call holds the value that running the program
   * call by call gives it.
   */
  lemma SameResultsAsPlainPython(g: Functions, calls: seq<Call>, es: seq<Event>)
    requires WellScoped(calls) && SoundSystem(START) && Run(START, es)
    requires forall e | e in es :: Honest(Work(g), e) && OfProgram(calls, e)
    ensures var b := Exec(START, es).b;
      forall n | n in b.nodes && b.nodes[n].completed ::
        n in Plain(g, calls) && b.nodes[n].resolvedValue == Plain(g, calls)[n]
  {
    hide SoundSystem, Run, Honest, OfProgram, Eval, Plain, WellScoped, Queued;
    ScheduleIndependence(Work(g), es);
    RunKeepsProgram(calls, START, es);
    var b := Exec(START, es).b;
    hide Exec;
    forall n | n in b.nodes && b.nodes[n].completed
      ensures n in Plain(g, calls) && b.nodes[n].resolvedValue == Plain(g, calls)[n]
    {
      var k :| 0 <= k < |calls| && calls[k].identifier == n && Queued(calls[k], b.nodes[n].decl);
      EvalIsPlain(g, calls, b, k);
    }
  }
}
