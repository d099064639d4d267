/** Disciplined runs from the empty broker, moment by moment. */
module Histories {
  import opened Inspection
  import opened Model
  import opened Runs
  import opened Discipline
  import opened Leases
  import opened Schedules

  /** The events form a disciplined run from the empty broker. */
  ghost predicate Legal(es: seq<Event>) {
    StartIsOnce();
    DisciplinedRun(START, es)
  }

  /** The system after the first k events. */
  ghost function At(es: seq<Event>, k: nat): System
    requires Legal(es) && k <= |es|
  {
    StartIsOnce();
    PrefixIsRun(START, es, k);
    Exec(START, es[..k])
  }

  /** The invariant holds at every moment of every disciplined run from the empty broker. */
  lemma AtIsOnce(es: seq<Event>, k: nat)
    requires Legal(es) && k <= |es|
    ensures OnceSystem(At(es, k))
  {
    hide OnceSystem, SoundSystem, DisciplinedRun, Run, Exec;
    StartIsOnce();
    PrefixIsRun(START, es, k);
  }

  lemma {:induction false} PrefixIsRun(s: System, es: seq<Event>, k: nat)
    requires OnceSystem(s) && DisciplinedRun(s, es) && k <= |es|
    ensures SoundSystem(s) && Run(s, es[..k]) && OnceSystem(Exec(s, es[..k]))
    decreases |es|
  {
    hide OnceSystem, SoundSystem, Enabled, Disciplined, Next;
    OnceFacts(s);
    if k > 0 {
      NextKeepsOnce(s, es[0]);
      PrefixIsRun(Next(s, es[0]), es[1..], k - 1);
      assert es[..k][1..] == es[1..][..k - 1];
    }
  }

  lemma {:induction false} PrefixStep(s: System, es: seq<Event>, k: nat)
    requires OnceSystem(s) && DisciplinedRun(s, es) && k < |es|
    requires SoundSystem(s) && Run(s, es[..k]) && Run(s, es[..k + 1]) && OnceSystem(Exec(s, es[..k]))
    ensures Enabled(Exec(s, es[..k]), es[k]) && Disciplined(Exec(s, es[..k]), es[k])
    ensures Exec(s, es[..k + 1]) == Next(Exec(s, es[..k]), es[k])
    decreases |es|
  {
    hide OnceSystem, SoundSystem, Enabled, Disciplined, Next;
    OnceFacts(s);
    NextKeepsOnce(s, es[0]);
    if k == 0 {
      assert es[..1][1..] == [];
    } else {
      OnceFacts(Next(s, es[0]));
      assert es[..k][1..] == es[1..][..k - 1] && es[..k + 1][1..] == es[1..][..k];
      PrefixStep(Next(s, es[0]), es[1..], k - 1);
    }
  }

  /** Each event may happen where it happens, and leads from one moment to the next. */
  lemma Moment(es: seq<Event>, k: nat)
    requires Legal(es) && k < |es|
    ensures OnceSystem(At(es, k)) && SoundSystem(At(es, k))
    ensures Enabled(At(es, k), es[k]) && Disciplined(At(es, k), es[k])
    ensures At(es, k + 1) == Next(At(es, k), es[k])
  {
    hide OnceSystem, SoundSystem, Enabled, Disciplined, Next, DisciplinedRun, Run, Exec;
    StartIsOnce();
    PrefixIsRun(START, es, k);
    PrefixIsRun(START, es, k + 1);
    PrefixStep(START, es, k);
    OnceFacts(At(es, k));
  }

  lemma Beginning(es: seq<Event>)
    requires Legal(es)
    ensures At(es, 0) == START
  {
    assert es[..0] == [];
  }

  // ---------------------------------------------------------------- one event more

  /** The events are a disciplined run from the empty broker to s. */
  ghost predicate Leads(es: seq<Event>, s: System) {
    Legal(es) && At(es, |es|) == s
  }

  lemma EmptyHistory()
    ensures Leads([], START) && OnceSystem(START) && SoundSystem(START)
    ensures START.b == EMPTY && START.clock == 0 && !START.stalled
  {
    StartIsOnce();
    Beginning([]);
    hide OnceSystem;
  }

  lemma LeadsIsRun(es: seq<Event>, s: System)
    requires Leads(es, s)
    ensures SoundSystem(START) && Run(START, es) && Exec(START, es) == s && OnceSystem(s)
  {
    StartIsOnce();
    DisciplinedIsRun(START, es);
    assert es[..|es|] == es;
    hide OnceSystem, SoundSystem, DisciplinedRun;
  }

  lemma LeadsEnds(es: seq<Event>, s: System)
    requires Leads(es, s)
    ensures Ends(es, s)
  {
    LeadsIsRun(es, s);
    hide OnceSystem, SoundSystem, Run, Exec;
  }

  lemma LeadsFurther(es: seq<Event>, s: System, e: Event)
    requires OnceSystem(s) && Leads(es, s) && Enabled(s, e) && Disciplined(s, e)
    ensures OnceSystem(Next(s, e)) && Leads(es + [e], Next(s, e))
  {
    hide OnceSystem, SoundSystem, Enabled, Disciplined, Next, Run, Exec, DisciplinedRun;
    StartIsOnce();
    OnceFacts(s);
    NextKeepsOnce(s, e);
    assert es[..|es|] == es && (es + [e])[..|es| + 1] == es + [e];
    DisciplinedIsRun(START, es);
    RunSnoc(START, es, e);
  }

  lemma {:induction false} RunSnoc(s: System, es: seq<Event>, e: Event)
    requires OnceSystem(s) && DisciplinedRun(s, es) && SoundSystem(s) && Run(s, es) && OnceSystem(Exec(s, es))
    requires Enabled(Exec(s, es), e) && Disciplined(Exec(s, es), e)
    ensures DisciplinedRun(s, es + [e]) && Run(s, es + [e]) && OnceSystem(Exec(s, es + [e]))
    ensures Exec(s, es + [e]) == Next(Exec(s, es), e)
    decreases |es|
  {
    hide OnceSystem, SoundSystem, Enabled, Disciplined, Next;
    if es == [] {
      OnceFacts(s);
      NextKeepsOnce(s, e);
      OnceFacts(Next(s, e));
      assert [e][1..] == [];
    } else {
      NextKeepsOnce(s, es[0]);
      OnceFacts(Next(s, es[0]));
      RunSnoc(Next(s, es[0]), es[1..], e);
      assert (es + [e])[1..] == es[1..] + [e];
    }
  }

  // ---------------------------------------------------------------- what the broker accepts

  /** The event is an answer for n that the broker accepts. */
  ghost predicate AnswersNow(s: System, e: Event, n: Id) {
    e.action.SubmitWork? && e.action.message.identifier == n
    && e.action.worker in s.b.workers && !s.b.workers[e.action.worker].invalidated
  }

  /** The event is a failure of n that the broker accepts. */
  ghost predicate FailsNow(s: System, e: Event, n: Id) {
    e.action.SubmitFailure? && e.action.message.identifier == n
    && e.action.worker in s.b.workers && !s.b.workers[e.action.worker].invalidated
  }
}
