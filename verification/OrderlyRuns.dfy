/** Runs that leave out what a lone orchestrator cannot meet. Protocol allows more than that on
    purpose: its claims may skip rows, since another claimer may hold them, its signals may carry
    any time, and its findings query may return anything. Safety is proved of all those runs. What can
    be reached is proved with orderly ones only. */
module OrderlyRuns {
  import opened Options
  import opened Tables
  import opened Protocol
  import opened ProtocolTheorems
  import opened Scheduling

  /** cited holds the investigations for which the findings query may return rows: those whose id
      is the parent_msg_id of some message. That column references messages(id). */
  type Cited = set<InvId>

  // Every event of the run is as ok wants it, in the state it meets
  ghost predicate Throughout(s: State, es: seq<Event>, ok: (State, Event) -> bool) {
    es != [] ==>
      var n := |es| - 1;
      Throughout(s, es[..n], ok) && ok(Run(s, es[..n]), es[n])
  }

  lemma ThroughoutOneMore(s: State, es: seq<Event>, more: seq<Event>, ok: (State, Event) -> bool)
    requires more != [] && Throughout(s, es + more[..|more| - 1], ok)
    requires ok(Run(s, es + more[..|more| - 1]), more[|more| - 1])
    ensures Throughout(s, es + more, ok)
  {
    assert (es + more)[..|es + more| - 1] == es + more[..|more| - 1];
  }

  lemma {:induction false} ThroughoutBoth(s: State, es: seq<Event>, mid: State, more: seq<Event>,
                                          ok: (State, Event) -> bool)
    requires Throughout(s, es, ok) && Run(s, es) == mid && Throughout(mid, more, ok)
    ensures Throughout(s, es + more, ok)
  {
    if more == [] {
      assert es + more == es;
    } else {
      ThroughoutBoth(s, es, mid, more[..|more| - 1], ok);
      RunAppend(s, es, more[..|more| - 1]);
      ThroughoutOneMore(s, es, more, ok);
    }
  }

  /* ---------- what the findings query returns ---------- */

  ghost predicate Gathers(pc: Pc) {
    pc.Busy? && pc.job.Gathering? && pc.job.todo != []
  }

  ghost predicate AnswersEvent(s: State, e: Event, cited: Cited) {
    e.Step? && e.p < |s.procs| && Gathers(s.procs[e.p]) && e.choice.found ==> s.procs[e.p].job.todo[0] in cited
  }

  // Every findings query of the run found rows for investigations in cited only
  ghost predicate Answers(s: State, es: seq<Event>, cited: Cited) {
    Throughout(s, es, (at, e) => AnswersEvent(at, e, cited))
  }

  /* ---------- orderly runs ---------- */

  // A claim that reaches the server takes an oldest waiting task, and comes back empty only if none waits
  ghost predicate ClaimsInOrder(s: State, agent: AgentId, ty: nat, fault: Fault, pick: Option<TaskId>) {
    ty < |REGISTRY| && !fault.RaiseBefore? ==>
      if pick.None? then NoneWaits(s.tasks, agent, Some(REGISTRY[ty]))
      else Oldest(s.tasks, pick.value, agent, Some(REGISTRY[ty]))
  }

  // Times do not go backwards
  ghost predicate InTime(s: State, e: Event) {
    match e
    case Send(_, _, now) => forall j :: 0 <= j < |s.signals| ==> s.signals[j].createdAt <= now
    case Create(_, now) => forall i :: 0 <= i < |s.invs| ==> s.invs[i].createdAt <= now
    case _ => true
  }

  ghost predicate OrderlyEvent(s: State, e: Event, cited: Cited) {
    && InTime(s, e) && AnswersEvent(s, e, cited)
    && (e.Step? && e.p < |s.procs| && s.procs[e.p].Busy? && s.procs[e.p].job.Claiming? ==>
          ClaimsInOrder(s, s.procs[e.p].job.agent, s.procs[e.p].job.ty, e.fault, e.choice.pick))
  }

  ghost predicate Orderly(s: State, es: seq<Event>, cited: Cited) {
    Throughout(s, es, (at, e) => OrderlyEvent(at, e, cited))
  }

  lemma {:induction false} ThroughoutWeaker(s: State, es: seq<Event>, ok: (State, Event) -> bool,
                                            ok': (State, Event) -> bool)
    requires Throughout(s, es, ok) && forall at, e :: ok(at, e) ==> ok'(at, e)
    ensures Throughout(s, es, ok')
  {
    if es != [] { ThroughoutWeaker(s, es[..|es| - 1], ok, ok'); }
  }

  lemma OrderlyAnswers(s: State, es: seq<Event>, cited: Cited)
    requires Orderly(s, es, cited)
    ensures Answers(s, es, cited)
  {
    ThroughoutWeaker(s, es, (at, e) => OrderlyEvent(at, e, cited), (at, e) => AnswersEvent(at, e, cited));
  }

  lemma AnswersBoth(es: seq<Event>, more: seq<Event>, cited: Cited)
    requires Answers(INIT, es, cited) && Answers(Run(INIT, es), more, cited)
    ensures Answers(INIT, es + more, cited)
  {
    ThroughoutBoth(INIT, es, Run(INIT, es), more, (at, e) => AnswersEvent(at, e, cited));
  }

  // Some orderly run leads from s to s'
  ghost predicate Reaches(s: State, s': State, cited: Cited) {
    exists es :: Leads(s, es, s', cited)
  }

  ghost predicate Leads(s: State, es: seq<Event>, s': State, cited: Cited) {
    Orderly(s, es, cited) && Run(s, es) == s'
  }

  lemma Stay(s: State, cited: Cited)
    ensures Reaches(s, s, cited)
  {
    assert Leads(s, [], s, cited);
  }

  lemma Go(s: State, e: Event, cited: Cited) returns (s': State)
    requires OrderlyEvent(s, e, cited)
    ensures s' == Apply(s, e) && Reaches(s, s', cited)
  {
    s' := Apply(s, e);
    assert [e][..0] == [] && Run(s, [e]) == Apply(Run(s, [e][..0]), e);
    assert Leads(s, [e], s', cited);
  }

  lemma Then(a: State, b: State, c: State, cited: Cited)
    requires Reaches(a, b, cited) && Reaches(b, c, cited)
    ensures Reaches(a, c, cited)
  {
    var es :| Leads(a, es, b, cited);
    var more :| Leads(b, more, c, cited);
    ThroughoutBoth(a, es, b, more, (at, e) => OrderlyEvent(at, e, cited));
    RunAppend(a, es, more);
    assert Leads(a, es + more, c, cited);
  }

  /* ---------- no report without findings ---------- */

  // _run_consensus past its findings
  ghost predicate Writes(pc: Pc) {
    pc.Busy? && (pc.job.Drafting? || pc.job.Reporting? || pc.job.Finishing?) && pc.job.todo != []
  }

  ghost predicate OnlyCited(s: State, cited: Cited) {
    && (forall i :: 0 <= i < |s.invs| && (s.invs[i].status.Done? || s.invs[i].report.Some?) ==> i in cited)
    && (forall p :: 0 <= p < |s.procs| && Writes(s.procs[p]) ==> s.procs[p].job.todo[0] in cited)
  }

  lemma EffectKeepsCited(s: State, pc: Pc, c: Choice, cited: Cited)
    requires OnlyCited(s, cited) && (Writes(pc) ==> pc.job.todo[0] in cited)
    ensures OnlyCited(Effect(s, pc, c), cited)
  {
  }

  lemma NextWrites(s: State, pc: Pc, c: Choice)
    ensures Writes(Next(s, pc, c)) ==> pc.Busy? && pc.job.Concluding() && Next(s, pc, c).job.todo == pc.job.todo
    ensures Writes(Next(s, pc, c)) ==> Writes(pc) || (Gathers(pc) && c.found)
    ensures !Writes(Caught(pc, c))
  {
  }

  lemma MoveKeepsCited(s: State, p: nat, pc: Pc, cited: Cited)
    requires OnlyCited(s, cited) && p < |s.procs| && (Writes(pc) ==> pc.job.todo[0] in cited)
    ensures OnlyCited(Move(s, p, pc), cited)
  {
  }

  lemma StepKeepsCited(s: State, p: nat, fault: Fault, c: Choice, cited: Cited)
    requires OnlyCited(s, cited) && p < |s.procs|
    requires Gathers(s.procs[p]) && c.found ==> s.procs[p].job.todo[0] in cited
    ensures OnlyCited(StepOf(s, p, fault, c), cited)
  {
    var pc := s.procs[p];
    EffectKeepsCited(s, pc, c, cited);
    NextWrites(s, pc, c);
    var mid := if fault.RaiseBefore? || (fault.RaiseAfter? && pc.Busy? && pc.job.Building?) then s else Effect(s, pc, c);
    MoveKeepsCited(mid, p, if fault.NoFault? then Next(s, pc, c) else Caught(pc, c), cited);
  }

  lemma EventKeepsCited(s: State, e: Event, cited: Cited)
    requires OnlyCited(s, cited) && AnswersEvent(s, e, cited)
    ensures OnlyCited(Apply(s, e), cited)
  {
    if e.Step? && e.p < |s.procs| { StepKeepsCited(s, e.p, e.fault, e.choice, cited); }
  }

  /** An investigation gets a report, let alone completes, only if a findings query returned rows
      for it: where none does, nothing ever completes. */
  lemma {:induction false} OnlyCitedComplete(es: seq<Event>, cited: Cited)
    requires Answers(INIT, es, cited)
    ensures OnlyCited(Run(INIT, es), cited)
  {
    if es != [] {
      var n := |es| - 1;
      OnlyCitedComplete(es[..n], cited);
      EventKeepsCited(Run(INIT, es[..n]), es[n], cited);
    }
  }

  /** Without findings nothing completes, in any run. */
  lemma NothingCompletes(es: seq<Event>)
    requires Answers(INIT, es, {})
    ensures forall i :: 0 <= i < |Run(INIT, es).invs| ==>
      !Run(INIT, es).invs[i].status.Done? && Run(INIT, es).invs[i].report.None?
  {
    OnlyCitedComplete(es, {});
  }
}
