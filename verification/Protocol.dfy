/** The investigation protocol: any number of orchestrators (runtime/orchestrator.py), the HTTP
    handlers and the database tables between them.

    One event is one SQL statement, or one piece of Python between two of them. Nothing is held
    across events, so orchestrators, handlers, exceptions and crashes interleave freely. An event
    that is not enabled leaves the state alone, so every sequence of events is a run. */
module Protocol {
  import opened Options
  import opened Tables

  // A row as signals.poll returned it
  datatype Ticket = Ticket(id: SignalId, kind: string, agent: Option<AgentId>)

  // What agent.run came back with
  datatype Outcome = Found(finding: Option<string>) | AgentError(error: string) | Threw(error: string)

  // Where a tick stands inside the handler of its current signal
  datatype Job =
    | Dispatch                                                     // at the head of the signal loop
    | Claiming(agent: AgentId, ty: nat)                            // before get_pending_task
    | Building(agent: AgentId, ty: nat, task: TaskId)              // claimed, before agent.run
    | Executing(agent: AgentId, ty: nat, task: TaskId)             // inside agent.run
    | Completing(agent: AgentId, ty: nat, task: TaskId, finding: Option<string>)
    | Failing(agent: AgentId, ty: nat, task: TaskId, error: string)
    | Recovering(agent: AgentId, ty: nat, task: TaskId, error: string)  // in the except clause
    | Listing(act: bool)                                           // before get_active_investigations
    | Counting(todo: seq<InvId>, act: bool)                        // at the head of the inv_ids loop
    | Asking(todo: seq<InvId>)                                     // _run_consensus on todo[0]
    | Gathering(todo: seq<InvId>)
    | Drafting(todo: seq<InvId>)
    | Reporting(todo: seq<InvId>, report: string)
    | Finishing(todo: seq<InvId>)
    | Marking                                                      // before mark_processed
  {
    ghost predicate HoldsTask() {
      Building? || Executing? || Completing? || Failing? || Recovering?
    }

    ghost predicate Concluding() {
      Asking? || Gathering? || Drafting? || Reporting? || Finishing?
    }
  }

  datatype Pc = Idle | Busy(batch: seq<Ticket>, at: nat, job: Job)

  /** starts and handled are history: the tasks agent.run was started on, and the signals some
      handler returned from normally. No transition reads them. */
  datatype State = State(invs: seq<Investigation>, tasks: seq<Task>, signals: seq<Signal>,
                         procs: seq<Pc>, requests: seq<InvId>,
                         starts: seq<TaskId>, handled: set<SignalId>)

  const INIT := State([], [], [], [], [], [], {})

  // Everything the code does not determine: rows returned, agent results, oracle answers
  datatype Choice = Choice(batch: seq<Ticket>, pick: Option<TaskId>, outcome: Outcome,
                           listed: seq<InvId>, found: bool, text: string)

  const NOTHING := Choice([], None, Found(None), [], false, "")

  // Whether the await raised, and if so whether its statement had already taken effect
  datatype Fault = NoFault | RaiseBefore | RaiseAfter

  datatype Event =
    | Create(jobs: seq<(AgentId, string)>, now: int)
    | Send(kind: string, agent: Option<AgentId>, now: int)
    | Boot
    | Crash(p: nat)
    | Step(p: nat, fault: Fault, choice: Choice)
    | ReadForConsensus(inv: InvId)
    | WriteConsensus(request: nat)

  /* ---------- what the queries return ---------- */

  // SELECT ... WHERE processed = false ORDER BY created_at
  predicate IsPoll(signals: seq<Signal>, batch: seq<Ticket>) {
    && (forall j :: 0 <= j < |batch| ==>
          batch[j].id < |signals| && !signals[batch[j].id].processed &&
          batch[j].kind == signals[batch[j].id].kind && batch[j].agent == signals[batch[j].id].agent)
    && (forall j, k :: 0 <= j < k < |batch| ==>
          batch[j].id != batch[k].id &&
          signals[batch[j].id].createdAt <= signals[batch[k].id].createdAt)
    && (forall i :: 0 <= i < |signals| && !signals[i].processed ==> Polled(batch, i))
  }

  predicate Polled(batch: seq<Ticket>, i: SignalId) {
    exists j :: 0 <= j < |batch| && batch[j].id == i
  }

  // The claiming UPDATE. Rows locked by another claimer are skipped, so any pending row of the
  // agent and type may come back, or none.
  predicate MayClaim(tasks: seq<Task>, agent: AgentId, ty: nat, pick: Option<TaskId>) {
    pick.Some? ==>
      var t := pick.value;
      ty < |REGISTRY| && t < |tasks| && tasks[t].status.Pending? && tasks[t].agent == agent &&
      tasks[t].taskType == REGISTRY[ty]
  }

  // SELECT id FROM investigations WHERE status IN (...) ORDER BY created_at
  predicate IsActiveList(invs: seq<Investigation>, ids: seq<InvId>) {
    && (forall j :: 0 <= j < |ids| ==> ids[j] < |invs| && invs[ids[j]].Active())
    && (forall j, k :: 0 <= j < k < |ids| ==>
          ids[j] != ids[k] && invs[ids[j]].createdAt <= invs[ids[k]].createdAt)
    && (forall i :: 0 <= i < |invs| && invs[i].Active() ==> i in ids)
  }

  /* ---------- one step of one orchestrator ---------- */

  ghost function JobFor(t: Ticket): Job {
    if t.kind == "force_tick" && t.agent.Some? then Claiming(t.agent.value, 0)
    else if t.kind == "start_investigation" then Listing(false)
    else if t.kind == "trigger_consensus" then Listing(true)
    else Marking
  }

  ghost function SetTask(s: State, t: TaskId, row: Task): State {
    if t < |s.tasks| then s.(tasks := s.tasks[t := row]) else s
  }

  // What the statement at pc does to the tables (and to the history of agent runs)
  ghost function Effect(s: State, pc: Pc, c: Choice): State {
    if pc.Idle? then s else
    match pc.job
    case Claiming(agent, ty) =>
      if c.pick.Some? && MayClaim(s.tasks, agent, ty, c.pick)
      then SetTask(s, c.pick.value, Claimed(s.tasks[c.pick.value])) else s
    case Building(_, _, t) => s.(starts := s.starts + [t])
    case Completing(_, _, t, finding) =>
      if t < |s.tasks| then SetTask(s, t, Completed(s.tasks[t], finding)) else s
    case Failing(_, _, t, error) =>
      if t < |s.tasks| then SetTask(s, t, FailedWith(s.tasks[t], error)) else s
    case Recovering(_, _, t, error) =>
      if t < |s.tasks| then SetTask(s, t, FailedWith(s.tasks[t], error)) else s
    case Reporting(todo, report) =>
      if todo != [] && todo[0] < |s.invs|
      then s.(invs := s.invs[todo[0] := s.invs[todo[0]].(report := Some(report))]) else s
    case Finishing(todo) =>
      if todo != [] && todo[0] < |s.invs|
      then s.(invs := s.invs[todo[0] := s.invs[todo[0]].(status := Done)]) else s
    case Marking =>
      if pc.at < |pc.batch| && pc.batch[pc.at].id < |s.signals|
      then var i := pc.batch[pc.at].id; s.(signals := s.signals[i := s.signals[i].(processed := true)])
      else s
    case _ => s
  }

  // Where control goes when nothing raises
  ghost function Next(s: State, pc: Pc, c: Choice): Pc {
    if pc.Idle? then (if IsPoll(s.signals, c.batch) then Busy(c.batch, 0, Dispatch) else Idle) else
    match pc.job
    case Dispatch => if pc.at < |pc.batch| then pc.(job := JobFor(pc.batch[pc.at])) else Idle
    case Claiming(agent, ty) =>
      if ty >= |REGISTRY| then pc.(job := Marking)
      else if !MayClaim(s.tasks, agent, ty, c.pick) then pc
      else if c.pick.None? then pc.(job := Claiming(agent, ty + 1))
      else pc.(job := Building(agent, ty, c.pick.value))
    case Building(agent, ty, t) => pc.(job := Executing(agent, ty, t))
    case Executing(agent, ty, t) => (
      match c.outcome
      case Found(finding) => pc.(job := Completing(agent, ty, t, finding))
      case AgentError(error) => pc.(job := Failing(agent, ty, t, error))
      case Threw(error) => pc.(job := Recovering(agent, ty, t, error)))
    case Completing(agent, ty, _, _) => pc.(job := Claiming(agent, ty + 1))
    case Failing(agent, ty, _, _) => pc.(job := Claiming(agent, ty + 1))
    case Recovering(agent, ty, _, _) => pc.(job := Claiming(agent, ty + 1))
    case Listing(act) => if IsActiveList(s.invs, c.listed) then pc.(job := Counting(c.listed, act)) else pc
    case Counting(todo, act) =>
      if todo == [] then pc.(job := Marking)
      else if act && Unfinished(s.tasks, todo[0]) == 0 then pc.(job := Asking(todo))
      else pc.(job := Counting(todo[1..], act))
    case Asking(todo) => pc.(job := Gathering(todo))
    case Gathering(todo) => if c.found then pc.(job := Drafting(todo)) else NextInvestigation(pc, todo)
    case Drafting(todo) => pc.(job := Reporting(todo, c.text))
    case Reporting(todo, _) => pc.(job := Finishing(todo))
    case Finishing(todo) => NextInvestigation(pc, todo)
    case Marking => pc.(at := pc.at + 1, job := Dispatch)
  }

  ghost function NextInvestigation(pc: Pc, todo: seq<InvId>): Pc
    requires pc.Busy?
  {
    pc.(job := Counting(if todo == [] then [] else todo[1..], true))
  }

  // Where an exception is caught: by a try inside the handler, else by start(), which drops the batch
  ghost function Caught(pc: Pc, c: Choice): Pc {
    if pc.Idle? then Idle else
    match pc.job
    case Executing(agent, ty, t) => pc.(job := Recovering(agent, ty, t, c.text))
    case Completing(agent, ty, t, _) => pc.(job := Recovering(agent, ty, t, c.text))
    case Failing(agent, ty, t, _) => pc.(job := Recovering(agent, ty, t, c.text))
    case Drafting(todo) => NextInvestigation(pc, todo)
    case Reporting(todo, _) => NextInvestigation(pc, todo)
    case Finishing(todo) => NextInvestigation(pc, todo)
    case _ => Idle
  }

  ghost predicate HandlerReturned(pc: Pc, pc': Pc) {
    pc.Busy? && pc'.Busy? && !pc.job.Marking? && pc'.job.Marking? && pc'.at < |pc'.batch|
  }

  ghost function Move(s: State, p: nat, pc': Pc): State
    requires p < |s.procs|
  {
    s.(procs := s.procs[p := pc'],
       handled := if HandlerReturned(s.procs[p], pc') then s.handled + {pc'.batch[pc'.at].id} else s.handled)
  }

  ghost function StepOf(s: State, p: nat, fault: Fault, c: Choice): State
    requires p < |s.procs|
  {
    var pc := s.procs[p];
    match fault
    case NoFault => Move(Effect(s, pc, c), p, Next(s, pc, c))
    case RaiseBefore => Move(s, p, Caught(pc, c))
    case RaiseAfter =>  // building an agent is no statement: it raises before the run or not at all
      Move(if pc.Busy? && pc.job.Building? then s else Effect(s, pc, c), p, Caught(pc, c))
  }

  /* ---------- events and runs ---------- */

  // The rows one committed CreateInvestigation adds; all carry the transaction's now()
  ghost function NewTasks(i: InvId, jobs: seq<(AgentId, string)>, now: int): seq<Task> {
    seq(|jobs|, k requires 0 <= k < |jobs| => Task(i, jobs[k].0, jobs[k].1, now, Pending, NoResult))
  }

  ghost function Apply(s: State, e: Event): State {
    match e
    case Create(jobs, now) =>
      if jobs == [] then s
      else s.(invs := s.invs + [Investigation(InProgress, None, now)],
              tasks := s.tasks + NewTasks(|s.invs|, jobs, now))
    case Send(kind, agent, now) => s.(signals := s.signals + [Signal(kind, agent, now, false)])
    case Boot => s.(procs := s.procs + [Idle])
    case Crash(p) => if p < |s.procs| then s.(procs := s.procs[p := Idle]) else s
    case Step(p, fault, c) => if p < |s.procs| then StepOf(s, p, fault, c) else s
    // TriggerConsensus: the read that sees a status other than 'complete' ...
    case ReadForConsensus(i) =>
      if i < |s.invs| && !s.invs[i].status.Done? then s.(requests := s.requests + [i]) else s
    // ... and the unconditional write some time later
    case WriteConsensus(r) =>
      if r < |s.requests| && s.requests[r] < |s.invs| then
        var i := s.requests[r];
        s.(invs := s.invs[i := s.invs[i].(status := Consensus)],
           requests := s.requests[..r] + s.requests[r + 1..])
      else s
  }

  ghost function Run(s: State, es: seq<Event>): State {
    if es == [] then s else Apply(Run(s, es[..|es| - 1]), es[|es| - 1])
  }
}
