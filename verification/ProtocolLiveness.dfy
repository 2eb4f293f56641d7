/** When an investigation can still be completed, by orderly runs. */
module ProtocolLiveness {
  import opened Options
  import opened Tables
  import opened Protocol
  import opened ProtocolSafety
  import opened ProtocolTheorems
  import opened Scheduling
  import opened Ticks
  import opened OrderlyRuns

  // Some orchestrator is between claiming this row and recording its end
  ghost predicate Held(s: State, t: TaskId) {
    exists p :: 0 <= p < |s.procs| && Holds(s.procs[p], t)
  }

  ghost predicate Holds(pc: Pc, t: TaskId) {
    pc.Busy? && pc.job.HoldsTask() && pc.job.task == t
  }

  // Ended, or waiting with a type some orchestrator serves, or in an orchestrator's hands
  ghost predicate Finishable(s: State, t: TaskId) {
    t < |s.tasks| &&
    match s.tasks[t].status
    case Pending => s.tasks[t].taskType in REGISTRY
    case Running => Held(s, t)
    case _ => true
  }

  ghost predicate CanFinish(s: State, i: InvId) {
    forall t :: 0 <= t < |s.tasks| && s.tasks[t].inv == i ==> Finishable(s, t)
  }

  ghost predicate At(s: State, p: nat, batch: seq<Ticket>, at: nat, job: Job) {
    p < |s.procs| && s.procs[p] == Busy(batch, at, job)
  }

  /** Some tasks were run to their end; of the orchestrators there were, only p moved. */
  ghost predicate Later(s: State, s': State, p: nat) {
    && |s'.tasks| == |s.tasks|
    && (forall u :: 0 <= u < |s.tasks| ==> s'.tasks[u] == s.tasks[u] || Ended(s.tasks[u], s'.tasks[u]))
    && s'.invs == s.invs && s'.requests == s.requests
    && |s.procs| <= |s'.procs| && (forall q :: 0 <= q < |s.procs| && q != p ==> s'.procs[q] == s.procs[q])
    && (p < |s.procs| ==> |s'.procs| == |s.procs|)
  }

  lemma LaterThen(a: State, b: State, c: State, p: nat, q: nat)
    requires Later(a, b, p) && Later(b, c, q) && (q == p || (p >= |a.procs| && q >= |a.procs|))
    ensures Later(a, c, p)
  {
  }

  /* ---------- one step of one orchestrator ---------- */

  // A step that neither claims nor finds rows, and raises nothing
  lemma Next1(s: State, p: nat, c: Choice, cited: Cited) returns (s': State)
    requires p < |s.procs| && !c.found
    requires s.procs[p].Busy? ==> !s.procs[p].job.Claiming?
    ensures Reaches(s, s', cited) && s' == StepOf(s, p, NoFault, c)
  {
    s' := Go(s, Step(p, NoFault, c), cited);
  }

  function Distance(job: Job): nat {
    if job.Building? then 2 else if job.Executing? then 1 else 0
  }

  // Only task t was run on, and only p moved
  ghost predicate WorkedOn(s: State, s': State, p: nat, t: TaskId) {
    && t < |s.tasks| == |s'.tasks| && (forall u :: 0 <= u < |s.tasks| && u != t ==> s'.tasks[u] == s.tasks[u])
    && s'.invs == s.invs && s'.requests == s.requests && s'.signals == s.signals
    && |s.procs| == |s'.procs| && (forall q :: 0 <= q < |s.procs| && q != p ==> s'.procs[q] == s.procs[q])
  }

  lemma StepHeld(s: State, p: nat, batch: seq<Ticket>, at: nat, job: Job, cited: Cited) returns (s': State, next: Job)
    requires At(s, p, batch, at, job) && job.HoldsTask() && job.task < |s.tasks|
    ensures Reaches(s, s', cited) && WorkedOn(s, s', p, job.task) && At(s', p, batch, at, next)
    ensures Distance(job) == 0 ==> next == Claiming(job.agent, job.ty + 1) && Ended(s.tasks[job.task], s'.tasks[job.task])
    ensures Distance(job) > 0 ==> next.HoldsTask() && next.task == job.task && next.agent == job.agent && next.ty == job.ty
    ensures Distance(job) > 0 ==> Distance(next) < Distance(job) && s'.tasks == s.tasks
  {
    s' := Next1(s, p, NOTHING, cited);
    next := s'.procs[p].job;
  }

  // The orchestrator runs the task it holds to its end
  lemma {:induction false} FinishHeld(s: State, p: nat, batch: seq<Ticket>, at: nat, job: Job, cited: Cited)
    returns (s': State)
    requires At(s, p, batch, at, job) && job.HoldsTask() && job.task < |s.tasks|
    ensures Reaches(s, s', cited) && WorkedOn(s, s', p, job.task)
    ensures At(s', p, batch, at, Claiming(job.agent, job.ty + 1))
    ensures Ended(s.tasks[job.task], s'.tasks[job.task])
    decreases Distance(job)
  {
    var mid, next := StepHeld(s, p, batch, at, job, cited);
    s' := mid;
    if Distance(job) > 0 {
      s' := FinishHeld(mid, p, batch, at, next, cited);
      Then(s, mid, s', cited);
    }
  }

  /* ---------- a force_tick ---------- */

  lemma ClaimType(s: State, p: nat, batch: seq<Ticket>, at: nat, agent: AgentId, ty: nat, cited: Cited)
    returns (s': State, t: Option<TaskId>)
    requires At(s, p, batch, at, Claiming(agent, ty)) && ty < |REGISTRY|
    ensures Reaches(s, s', cited)
    ensures s' == s.(tasks := s'.tasks, procs := s'.procs)
    ensures forall q :: 0 <= q < |s.procs| && q != p && |s'.procs| == |s.procs| ==> s'.procs[q] == s.procs[q]
    ensures |s'.procs| == |s.procs|
    ensures t.None? ==> NoneWaits(s.tasks, agent, Some(REGISTRY[ty]))
    ensures t.None? ==> s'.tasks == s.tasks && At(s', p, batch, at, Claiming(agent, ty + 1))
    ensures t.Some? ==> Oldest(s.tasks, t.value, agent, Some(REGISTRY[ty]))
    ensures t.Some? ==> s'.tasks == s.tasks[t.value := Claimed(s.tasks[t.value])]
    ensures t.Some? ==> At(s', p, batch, at, Building(agent, ty, t.value))
  {
    t := FirstOldest(s.tasks, agent, Some(REGISTRY[ty]));
    s' := Go(s, Step(p, NoFault, NOTHING.(pick := t)), cited);
  }

  // One type of the registry: an oldest waiting task is taken to its end, if any waits
  lemma ServeType(s: State, p: nat, batch: seq<Ticket>, at: nat, agent: AgentId, ty: nat, cited: Cited)
    returns (s': State, t: Option<TaskId>)
    requires At(s, p, batch, at, Claiming(agent, ty)) && ty < |REGISTRY|
    ensures Reaches(s, s', cited) && Later(s, s', p) && s'.signals == s.signals
    ensures At(s', p, batch, at, Claiming(agent, ty + 1)) && |s'.procs| == |s.procs|
    ensures t.None? ==> NoneWaits(s.tasks, agent, Some(REGISTRY[ty]))
    ensures t.Some? ==> t.value < |s.tasks| && s.tasks[t.value].status.Pending? && s'.tasks[t.value].status.Terminal()
  {
    s', t := ClaimType(s, p, batch, at, agent, ty, cited);
    if t.Some? {
      var mid := s';
      s' := FinishHeld(mid, p, batch, at, Building(agent, ty, t.value), cited);
      Then(s, mid, s', cited);
    }
  }

  // The rest of the registry. If t waits for a type still to come, some waiting task u is taken.
  lemma {:induction false} ServeTypes(s: State, p: nat, batch: seq<Ticket>, at: nat, agent: AgentId, ty: nat,
                                      t: TaskId, k: nat, cited: Cited)
    returns (s': State, u: TaskId)
    requires At(s, p, batch, at, Claiming(agent, ty)) && ty <= |REGISTRY|
    ensures Reaches(s, s', cited) && Later(s, s', p) && s'.signals == s.signals
    ensures At(s', p, batch, at, Claiming(agent, |REGISTRY|))
    ensures t < |s.tasks| && ty <= k < |REGISTRY| && Waiting(s.tasks[t], agent, Some(REGISTRY[k])) ==>
      u < |s.tasks| && s.tasks[u].status.Pending? && s'.tasks[u].status.Terminal()
    decreases |REGISTRY| - ty
  {
    if ty == |REGISTRY| {
      s', u := s, 0;
      Stay(s, cited);
    } else {
      var mid, taken := ServeType(s, p, batch, at, agent, ty, cited);
      s', u := ServeTypes(mid, p, batch, at, agent, ty + 1, t, k, cited);
      Then(s, mid, s', cited);
      LaterThen(s, mid, s', p, p);
      if t < |s.tasks| && ty <= k < |REGISTRY| && Waiting(s.tasks[t], agent, Some(REGISTRY[k])) {
        if mid.tasks[t] != s.tasks[t] {
          u := t;
        } else if k == ty {
          u := taken.value;
        }
      }
    }
  }

  lemma HandleTick(s: State, p: nat, batch: seq<Ticket>, at: nat, agent: AgentId, t: TaskId, k: nat, cited: Cited)
    returns (s': State, u: TaskId)
    requires At(s, p, batch, at, Claiming(agent, 0))
    ensures Reaches(s, s', cited) && Later(s, s', p) && s'.signals == s.signals
    ensures At(s', p, batch, at, Marking)
    ensures t < |s.tasks| && k < |REGISTRY| && Waiting(s.tasks[t], agent, Some(REGISTRY[k])) ==>
      u < |s.tasks| && s.tasks[u].status.Pending? && s'.tasks[u].status.Terminal()
  {
    var mid;
    mid, u := ServeTypes(s, p, batch, at, agent, 0, t, k, cited);
    s' := Go(mid, Step(p, NoFault, NOTHING), cited);
    Then(s, mid, s', cited);
  }

  /* ---------- the other signals ---------- */

  // _run_consensus without findings
  lemma GiveUp(s: State, p: nat, batch: seq<Ticket>, at: nat, todo: seq<InvId>, cited: Cited) returns (s': State)
    requires At(s, p, batch, at, Asking(todo)) && todo != []
    ensures Reaches(s, s', cited) && Later(s, s', p) && s'.signals == s.signals && s'.tasks == s.tasks
    ensures At(s', p, batch, at, Counting(todo[1..], true))
  {
    var mid := Next1(s, p, NOTHING, cited);
    s' := Next1(mid, p, NOTHING, cited);
    Then(s, mid, s', cited);
  }

  lemma SkipOne(s: State, p: nat, batch: seq<Ticket>, at: nat, todo: seq<InvId>, act: bool, cited: Cited)
    returns (s': State)
    requires At(s, p, batch, at, Counting(todo, act)) && todo != []
    ensures Reaches(s, s', cited) && Later(s, s', p) && s'.signals == s.signals && s'.tasks == s.tasks
    ensures At(s', p, batch, at, Counting(todo[1..], act))
  {
    s' := Next1(s, p, NOTHING, cited);
    if act && Unfinished(s.tasks, todo[0]) == 0 {
      var mid := s';
      s' := GiveUp(mid, p, batch, at, todo, cited);
      Then(s, mid, s', cited);
    }
  }

  // The inv_ids loop, passing every investigation by, up to one it is looking for
  lemma {:induction false} SkipTo(s: State, p: nat, batch: seq<Ticket>, at: nat, todo: seq<InvId>, act: bool,
                                  i: InvId, cited: Cited)
    returns (s': State, rest: seq<InvId>)
    requires At(s, p, batch, at, Counting(todo, act))
    ensures Reaches(s, s', cited) && Later(s, s', p) && s'.signals == s.signals && s'.tasks == s.tasks
    ensures At(s', p, batch, at, Counting(rest, act))
    ensures if i in todo then rest != [] && rest[0] == i else rest == []
    decreases |todo|
  {
    if todo == [] || todo[0] == i {
      s', rest := s, todo;
      Stay(s, cited);
    } else {
      var mid := SkipOne(s, p, batch, at, todo, act, cited);
      s', rest := SkipTo(mid, p, batch, at, todo[1..], act, i, cited);
      Then(s, mid, s', cited);
      LaterThen(s, mid, s', p, p);
    }
  }

  lemma ListThem(s: State, p: nat, batch: seq<Ticket>, at: nat, act: bool, cited: Cited)
    returns (s': State, ids: seq<InvId>)
    requires At(s, p, batch, at, Listing(act))
    ensures Reaches(s, s', cited) && Later(s, s', p) && s'.signals == s.signals && s'.tasks == s.tasks
    ensures At(s', p, batch, at, Counting(ids, act)) && IsActiveList(s.invs, ids)
  {
    ids := ActiveIds(s.invs);
    s' := Next1(s, p, NOTHING.(listed := ids), cited);
  }

  // A start_investigation, or a trigger_consensus that finds nothing
  lemma HandleList(s: State, p: nat, batch: seq<Ticket>, at: nat, act: bool, cited: Cited) returns (s': State)
    requires At(s, p, batch, at, Listing(act))
    ensures Reaches(s, s', cited) && Later(s, s', p) && s'.signals == s.signals && At(s', p, batch, at, Marking)
  {
    var mid, ids := ListThem(s, p, batch, at, act, cited);
    var end, rest := SkipTo(mid, p, batch, at, ids, act, |s.invs|, cited);
    Then(s, mid, end, cited);
    LaterThen(s, mid, end, p, p);
    s' := Next1(end, p, NOTHING, cited);
    Then(s, end, s', cited);
  }

  lemma HandleSignal(s: State, p: nat, batch: seq<Ticket>, at: nat, cited: Cited) returns (s': State)
    requires at < |batch| && At(s, p, batch, at, JobFor(batch[at]))
    ensures Reaches(s, s', cited) && Later(s, s', p) && s'.signals == s.signals && At(s', p, batch, at, Marking)
  {
    var job := JobFor(batch[at]);
    if job.Claiming? {
      var u;
      s', u := HandleTick(s, p, batch, at, job.agent, 0, 0, cited);
    } else if job.Listing? {
      s' := HandleList(s, p, batch, at, job.act, cited);
    } else {
      s' := s;
      Stay(s, cited);
    }
  }

  lemma DispatchOne(s: State, p: nat, batch: seq<Ticket>, at: nat, cited: Cited) returns (s': State)
    requires at < |batch| && At(s, p, batch, at, Dispatch)
    ensures Reaches(s, s', cited) && Later(s, s', p) && s'.signals == s.signals
    ensures At(s', p, batch, at, JobFor(batch[at]))
  {
    s' := Next1(s, p, NOTHING, cited);
  }

  lemma MarkOne(s: State, p: nat, batch: seq<Ticket>, at: nat, cited: Cited) returns (s': State)
    requires at < |batch| && At(s, p, batch, at, Marking)
    ensures Reaches(s, s', cited) && Later(s, s', p) && At(s', p, batch, at + 1, Dispatch)
    ensures s'.signals == Marked(s.signals, batch[at].id)
  {
    s' := Next1(s, p, NOTHING, cited);
  }

  function Marked(signals: seq<Signal>, i: SignalId): seq<Signal> {
    if i < |signals| then signals[i := signals[i].(processed := true)] else signals
  }

  // One round of the signal loop
  lemma ProcessOne(s: State, p: nat, batch: seq<Ticket>, at: nat, cited: Cited) returns (s': State)
    requires at < |batch| && At(s, p, batch, at, Dispatch)
    ensures Reaches(s, s', cited) && Later(s, s', p) && At(s', p, batch, at + 1, Dispatch)
    ensures s'.signals == Marked(s.signals, batch[at].id)
  {
    var dispatched := DispatchOne(s, p, batch, at, cited);
    var handled := HandleSignal(dispatched, p, batch, at, cited);
    s' := MarkOne(handled, p, batch, at, cited);
    Then(s, dispatched, handled, cited);
    LaterThen(s, dispatched, handled, p, p);
    Then(s, handled, s', cited);
    LaterThen(s, handled, s', p, p);
  }

  ghost predicate InRest(batch: seq<Ticket>, at: nat, i: SignalId) {
    exists j :: at <= j < |batch| && batch[j].id == i
  }

  // What was processed stays so, and what the rest of the batch holds is processed
  ghost predicate Drained(a: seq<Signal>, b: seq<Signal>, batch: seq<Ticket>, at: nat) {
    && |a| == |b|
    && (forall i :: 0 <= i < |a| && (a[i].processed || InRest(batch, at, i)) ==> b[i].processed)
  }

  lemma DrainedOneMore(a: seq<Signal>, b: seq<Signal>, batch: seq<Ticket>, at: nat)
    requires at < |batch| && Drained(Marked(a, batch[at].id), b, batch, at + 1)
    ensures Drained(a, b, batch, at)
  {
    forall i | 0 <= i < |a| && (a[i].processed || InRest(batch, at, i)) ensures b[i].processed {
      if i != batch[at].id && !a[i].processed { assert InRest(batch, at + 1, i); }
    }
  }

  // The rest of the batch, to the end of the tick
  lemma {:induction false} DrainFrom(s: State, p: nat, batch: seq<Ticket>, at: nat, cited: Cited) returns (s': State)
    requires at <= |batch| && At(s, p, batch, at, Dispatch)
    ensures Reaches(s, s', cited) && Later(s, s', p) && |s'.procs| == |s.procs| && s'.procs[p] == Idle
    ensures Drained(s.signals, s'.signals, batch, at)
    decreases |batch| - at
  {
    if at == |batch| {
      s' := Next1(s, p, NOTHING, cited);
    } else {
      var mid := ProcessOne(s, p, batch, at, cited);
      s' := DrainFrom(mid, p, batch, at + 1, cited);
      DrainedOneMore(s.signals, s'.signals, batch, at);
      Then(s, mid, s', cited);
      LaterThen(s, mid, s', p, p);
    }
  }

  /* ---------- a signal of its own ---------- */

  function TicketsOf(signals: seq<Signal>, rows: seq<SignalId>): (batch: seq<Ticket>)
    requires forall j :: 0 <= j < |rows| ==> rows[j] < |signals|
    ensures |batch| == |rows| && forall j :: 0 <= j < |rows| ==> batch[j] == TicketOf(signals, rows[j])
  {
    if rows == [] then [] else TicketsOf(signals, rows[..|rows| - 1]) + [TicketOf(signals, rows[|rows| - 1])]
  }

  lemma SomePoll(signals: seq<Signal>) returns (batch: seq<Ticket>)
    ensures IsPoll(signals, batch)
    ensures forall j :: 0 <= j < |batch| ==> batch[j].id < |signals| && batch[j] == TicketOf(signals, batch[j].id)
  {
    var rows := UnprocessedIds(signals);
    batch := TicketsOf(signals, rows);
    forall i | 0 <= i < |signals| && !signals[i].processed ensures Polled(batch, i) {
      var j :| 0 <= j < |rows| && rows[j] == i;
      assert batch[j].id == i;
    }
  }

  // A fresh orchestrator handles every signal there is
  lemma Drain(s: State, cited: Cited) returns (s': State)
    ensures Reaches(s, s', cited) && Later(s, s', |s.procs|)
    ensures |s'.procs| == |s.procs| + 1 && s'.procs[|s.procs|] == Idle
    ensures forall i :: 0 <= i < |s'.signals| ==> s'.signals[i].processed
  {
    var p := |s.procs|;
    var batch := SomePoll(s.signals);
    var booted := Go(s, Boot, cited);
    var polled := Next1(booted, p, NOTHING.(batch := batch), cited);
    Then(s, booted, polled, cited);
    assert At(polled, p, batch, 0, Dispatch);
    s' := DrainFrom(polled, p, batch, 0, cited);
    Then(s, polled, s', cited);
    forall i | 0 <= i < |s.signals| && !s.signals[i].processed ensures InRest(batch, 0, i) {
      assert Polled(batch, i);
    }
  }

  // A time no earlier than any signal's
  function Now(signals: seq<Signal>): (now: int)
    ensures forall i :: 0 <= i < |signals| ==> signals[i].createdAt <= now
  {
    if signals == [] then 0
    else
      var n := |signals| - 1;
      var rest := Now(signals[..n]);
      if rest < signals[n].createdAt then signals[n].createdAt else rest
  }

  // When all the others are processed, a poll returns just the last signal
  lemma LoneTicket(signals: seq<Signal>, batch: seq<Ticket>)
    requires signals != [] && !signals[|signals| - 1].processed && IsPoll(signals, batch)
    requires forall i :: 0 <= i < |signals| - 1 ==> signals[i].processed
    ensures |batch| == 1 && batch[0].id == |signals| - 1
    ensures batch[0].kind == signals[|signals| - 1].kind && batch[0].agent == signals[|signals| - 1].agent
  {
    assert Polled(batch, |signals| - 1);
    assert forall j :: 0 <= j < |batch| ==> batch[j].id == |signals| - 1;
    assert batch[0].id == batch[|batch| - 1].id;
  }

  // With every signal handled, a new one is sent, polled and dispatched
  lemma Deliver(s: State, p: nat, kind: string, agent: Option<AgentId>, cited: Cited)
    returns (s': State, batch: seq<Ticket>)
    requires p < |s.procs| && s.procs[p] == Idle && forall i :: 0 <= i < |s.signals| ==> s.signals[i].processed
    ensures Reaches(s, s', cited) && Later(s, s', p) && s'.tasks == s.tasks
    ensures batch != [] && batch[0].kind == kind && batch[0].agent == agent && At(s', p, batch, 0, JobFor(batch[0]))
  {
    var sent := Go(s, Send(kind, agent, Now(s.signals)), cited);
    batch := SomePoll(sent.signals);
    LoneTicket(sent.signals, batch);
    var polled := Next1(sent, p, NOTHING.(batch := batch), cited);
    Then(s, sent, polled, cited);
    assert At(polled, p, batch, 0, Dispatch);
    s' := Next1(polled, p, NOTHING, cited);
    Then(s, polled, s', cited);
  }

  lemma Summon(s: State, kind: string, agent: Option<AgentId>, cited: Cited) returns (s': State, batch: seq<Ticket>)
    ensures Reaches(s, s', cited) && Later(s, s', |s.procs|)
    ensures batch != [] && batch[0].kind == kind && batch[0].agent == agent
    ensures At(s', |s.procs|, batch, 0, JobFor(batch[0]))
  {
    var drained := Drain(s, cited);
    s', batch := Deliver(drained, |s.procs|, kind, agent, cited);
    Then(s, drained, s', cited);
    LaterThen(s, drained, s', |s.procs|, |s.procs|);
  }

  /* ---------- finishing a task ---------- */

  lemma {:induction false} LaterWeighs(a: seq<Task>, b: seq<Task>, u: TaskId)
    requires |a| == |b| && forall t :: 0 <= t < |a| ==> b[t] == a[t] || Ended(a[t], b[t])
    requires u < |a| ==> a[u].status.Pending? && b[u].status.Terminal()
    ensures Potential(b) + (if u < |a| then 1 else 0) <= Potential(a)
  {
    if a != [] { LaterWeighs(a[..|a| - 1], b[..|b| - 1], u); }
  }

  // A force_tick for the agent of a waiting task takes that task, or one that waits before it
  lemma TickFor(s: State, t: TaskId, cited: Cited) returns (s': State)
    requires t < |s.tasks| && s.tasks[t].status.Pending? && s.tasks[t].taskType in REGISTRY
    ensures Reaches(s, s', cited) && Later(s, s', |s.procs|)
    ensures Potential(s'.tasks) < Potential(s.tasks)
  {
    var k :| 0 <= k < |REGISTRY| && REGISTRY[k] == s.tasks[t].taskType;
    var agent := s.tasks[t].agent;
    var mid, batch := Summon(s, "force_tick", Some(agent), cited);
    if mid.tasks[t] != s.tasks[t] {
      s' := mid;
      LaterWeighs(s.tasks, mid.tasks, t);
    } else {
      var u;
      s', u := HandleTick(mid, |s.procs|, batch, 0, agent, t, k, cited);
      Then(s, mid, s', cited);
      LaterThen(s, mid, s', |s.procs|, |s.procs|);
      LaterWeighs(s.tasks, mid.tasks, |s.tasks|);
      LaterWeighs(mid.tasks, s'.tasks, u);
    }
  }

  lemma {:induction false} FinishPending(s: State, t: TaskId, cited: Cited) returns (s': State)
    requires t < |s.tasks| && s.tasks[t].status.Pending? && s.tasks[t].taskType in REGISTRY
    ensures Reaches(s, s', cited) && Later(s, s', |s.procs|) && s'.tasks[t].status.Terminal()
    decreases Potential(s.tasks)
  {
    s' := TickFor(s, t, cited);
    if s'.tasks[t].status.Pending? {
      var mid := s';
      s' := FinishPending(mid, t, cited);
      Then(s, mid, s', cited);
      LaterThen(s, mid, s', |s.procs|, |mid.procs|);
    }
  }

  // One finishable task is finished; p is the orchestrator that held it, if one did
  lemma FinishOne(s: State, t: TaskId, cited: Cited) returns (s': State, p: nat)
    requires Finishable(s, t)
    ensures Reaches(s, s', cited) && Later(s, s', p) && t < |s'.tasks| && s'.tasks[t].status.Terminal()
    ensures p < |s.procs| ==> forall u :: u != t ==> !Holds(s.procs[p], u)
  {
    s', p := s, |s.procs|;
    if s.tasks[t].status.Pending? {
      s' := FinishPending(s, t, cited);
    } else if s.tasks[t].status.Running? {
      p :| 0 <= p < |s.procs| && Holds(s.procs[p], t);
      s' := FinishHeld(s, p, s.procs[p].batch, s.procs[p].at, s.procs[p].job, cited);
    } else {
      Stay(s, cited);
    }
  }

  lemma StaysFinishable(s: State, s': State, p: nat, t: TaskId, u: TaskId)
    requires Later(s, s', p) && Finishable(s, u) && t < |s.tasks| && s'.tasks[t].status.Terminal()
    requires p < |s.procs| ==> forall v :: v != t ==> !Holds(s.procs[p], v)
    ensures Finishable(s', u)
  {
    if s.tasks[u].status.Running? && s'.tasks[u] == s.tasks[u] && u != t {
      var q :| 0 <= q < |s.procs| && Holds(s.procs[q], u);
      assert Holds(s'.procs[q], u);
    }
  }

  ghost predicate FinishedUpTo(tasks: seq<Task>, i: InvId, n: nat) {
    forall t :: 0 <= t < n && t < |tasks| && tasks[t].inv == i ==> tasks[t].status.Terminal()
  }

  // What finishing tasks leaves as it was
  ghost predicate SameCases(s: State, s': State) {
    s'.invs == s.invs && s'.requests == s.requests && |s'.tasks| == |s.tasks|
  }

  lemma FinishNext(s: State, i: InvId, t: TaskId, cited: Cited) returns (s': State)
    requires CanFinish(s, i) && t < |s.tasks| && FinishedUpTo(s.tasks, i, t)
    ensures Reaches(s, s', cited) && SameCases(s, s') && CanFinish(s', i) && FinishedUpTo(s'.tasks, i, t + 1)
  {
    s' := s;
    if s.tasks[t].inv == i {
      var p;
      assert Finishable(s, t);
      s', p := FinishOne(s, t, cited);
      forall u | 0 <= u < |s'.tasks| && s'.tasks[u].inv == i ensures Finishable(s', u) {
        StaysFinishable(s, s', p, t, u);
      }
    } else {
      Stay(s, cited);
    }
  }

  // The first n tasks of the investigation are finished, the rest still can be
  lemma {:induction false} FinishFirst(s: State, i: InvId, n: nat, cited: Cited) returns (s': State)
    requires CanFinish(s, i) && n <= |s.tasks|
    ensures Reaches(s, s', cited) && SameCases(s, s') && CanFinish(s', i) && FinishedUpTo(s'.tasks, i, n)
  {
    if n == 0 {
      s' := s;
      Stay(s, cited);
    } else {
      var mid := FinishFirst(s, i, n - 1, cited);
      s' := FinishNext(mid, i, n - 1, cited);
      Then(s, mid, s', cited);
    }
  }

  /* ---------- concluding ---------- */

  lemma Gather(s: State, p: nat, batch: seq<Ticket>, at: nat, todo: seq<InvId>, cited: Cited) returns (s': State)
    requires At(s, p, batch, at, Asking(todo)) && todo != [] && todo[0] in cited
    ensures Reaches(s, s', cited) && s'.invs == s.invs && s'.requests == s.requests
    ensures At(s', p, batch, at, Drafting(todo))
  {
    var mid := Next1(s, p, NOTHING, cited);
    s' := Go(mid, Step(p, NoFault, NOTHING.(found := true)), cited);
    Then(s, mid, s', cited);
  }

  lemma WriteReport(s: State, p: nat, batch: seq<Ticket>, at: nat, todo: seq<InvId>, i: InvId, cited: Cited)
    returns (s': State)
    requires At(s, p, batch, at, Drafting(todo)) && todo != [] && todo[0] == i && i < |s.invs|
    ensures Reaches(s, s', cited) && s'.requests == s.requests && At(s', p, batch, at, Finishing(todo))
    ensures s'.invs == s.invs[i := s.invs[i].(report := Some(""))]
  {
    var drafted := Next1(s, p, NOTHING, cited);
    assert At(drafted, p, batch, at, Reporting(todo, ""));
    s' := Next1(drafted, p, NOTHING, cited);
    Then(s, drafted, s', cited);
  }

  lemma Publish(s: State, p: nat, batch: seq<Ticket>, at: nat, todo: seq<InvId>, i: InvId, cited: Cited)
    returns (s': State)
    requires At(s, p, batch, at, Drafting(todo)) && todo != [] && todo[0] == i && i < |s.invs|
    ensures Reaches(s, s', cited) && s'.requests == s.requests
    ensures s'.invs == s.invs[i := Investigation(Done, Some(""), s.invs[i].createdAt)]
  {
    var reported := WriteReport(s, p, batch, at, todo, i, cited);
    s' := Next1(reported, p, NOTHING, cited);
    Then(s, reported, s', cited);
  }

  // A consensus check comes upon the finished investigation
  lemma ReachInvestigation(s: State, i: InvId, cited: Cited)
    returns (s': State, batch: seq<Ticket>, todo: seq<InvId>)
    requires i < |s.invs| && Finished(s.tasks, i) && !s.invs[i].status.Done?
    ensures Reaches(s, s', cited) && SameCases(s, s') && Finished(s'.tasks, i)
    ensures At(s', |s.procs|, batch, 0, Counting(todo, true)) && todo != [] && todo[0] == i
  {
    var p := |s.procs|;
    var summoned, ids;
    summoned, batch := Summon(s, "trigger_consensus", None, cited);
    var listed;
    listed, ids := ListThem(summoned, p, batch, 0, true, cited);
    Then(s, summoned, listed, cited);
    assert s.invs[i].Active();
    s', todo := SkipTo(listed, p, batch, 0, ids, true, i, cited);
    Then(s, listed, s', cited);
  }

  // With findings and a finished investigation, a check completes it
  lemma Conclude(s: State, i: InvId, cited: Cited) returns (s': State)
    requires i < |s.invs| && Finished(s.tasks, i) && !s.invs[i].status.Done? && i in cited
    ensures Reaches(s, s', cited) && s'.requests == s.requests
    ensures s'.invs == s.invs[i := Investigation(Done, Some(""), s.invs[i].createdAt)]
  {
    var p := |s.procs|;
    var found, batch, todo := ReachInvestigation(s, i, cited);
    UnfinishedZero(found.tasks, i);
    var asking := Next1(found, p, NOTHING, cited);
    Then(s, found, asking, cited);
    var gathered := Gather(asking, p, batch, 0, todo, cited);
    Then(s, asking, gathered, cited);
    s' := Publish(gathered, p, batch, 0, todo, i, cited);
    Then(s, gathered, s', cited);
  }

  /* ---------- exactly when ---------- */

  // A task that cannot be finished keeps its investigation from completion
  lemma StuckStays(es: seq<Event>, more: seq<Event>, i: InvId, t: TaskId)
    requires t < |Run(INIT, es).tasks| && Run(INIT, es).tasks[t].inv == i && !Finishable(Run(INIT, es), t)
    ensures var s := Run(INIT, es + more); i < |s.invs| && !s.invs[i].status.Done?
  {
    var s, s' := Run(INIT, es), Run(INIT, es + more);
    RunAppend(INIT, es, more);
    RunMonotone(s, more);
    assert TaskAdvances(s.tasks[t], s'.tasks[t]);
    if s.tasks[t].status.Pending? {
      UnregisteredNeverRuns(es + more);
    } else {
      OrphanBlocksCompletion(es, more, t);
    }
  }

  ghost predicate Completes(es: seq<Event>, more: seq<Event>, i: InvId) {
    i < |Run(INIT, es + more).invs| && Run(INIT, es + more).invs[i].status.Done?
  }

  /** Whatever its future holds, orderly or not, an investigation is read as complete only if each of
      its tasks has ended, or waits with a type of the registry, or is in the hands of a live
      orchestrator, and only if the findings query may return rows for it. */
  lemma CompletedOnlyIf(es: seq<Event>, more: seq<Event>, i: InvId, cited: Cited)
    requires Answers(INIT, es, cited) && Answers(Run(INIT, es), more, cited) && Completes(es, more, i)
    ensures CanFinish(Run(INIT, es), i) && i in cited
  {
    AnswersBoth(es, more, cited);
    OnlyCitedComplete(es + more, cited);
    forall t | 0 <= t < |Run(INIT, es).tasks| && Run(INIT, es).tasks[t].inv == i ensures Finishable(Run(INIT, es), t) {
      if !Finishable(Run(INIT, es), t) { StuckStays(es, more, i, t); }
    }
  }

  lemma MayComplete(s: State, i: InvId, cited: Cited) returns (s': State)
    requires i < |s.invs| && CanFinish(s, i) && i in cited
    ensures Reaches(s, s', cited) && i < |s'.invs| && s'.invs[i].status.Done?
  {
    var mid := FinishFirst(s, i, |s.tasks|, cited);
    s' := mid;
    if !mid.invs[i].status.Done? {
      s' := Conclude(mid, i, cited);
      Then(s, mid, s', cited);
    }
  }

  /** In any reachable state an investigation can still be completed exactly when each of its tasks
      has ended, or waits with a type of the registry, or is in the hands of a live orchestrator,
      and the findings query may return rows for it. The future that completes it is orderly: claims
      take the oldest tasks, times do not go backwards, and earlier signals are handled first. */
  lemma CompletableIff(es: seq<Event>, i: InvId, cited: Cited)
    requires Answers(INIT, es, cited) && i < |Run(INIT, es).invs|
    ensures CanFinish(Run(INIT, es), i) && i in cited <==>
      exists more :: Orderly(Run(INIT, es), more, cited) && Completes(es, more, i)
  {
    var s := Run(INIT, es);
    if CanFinish(s, i) && i in cited {
      var s' := MayComplete(s, i, cited);
      var more :| Leads(s, more, s', cited);
      RunAppend(INIT, es, more);
      assert Completes(es, more, i);
    }
    if more :| Orderly(s, more, cited) && Completes(es, more, i) {
      OrderlyAnswers(s, more, cited);
      CompletedOnlyIf(es, more, i, cited);
    }
  }
}
