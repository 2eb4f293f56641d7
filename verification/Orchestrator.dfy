/** runtime/orchestrator.py: one orchestrator at work. Its steps change the tables through the
    scheduler and the poller; every one of them is an event of the protocol, recorded in trace, so
    whatever it does extends the run it started from and Protocol's guarantees hold of it. */
module Orchestration {
  import opened Options
  import opened Tables
  import opened Protocol
  import opened ProtocolSafety
  import opened ProtocolTheorems
  import opened Scheduling
  import opened Ticks
  import opened Environment

  /** What comes back from outside while one signal is handled: what agent.run makes of a task,
      the findings the query returns for an investigation, and the report the model drafts for it,
      or None when drafting raises. */
  datatype Answers = Answers(run: TaskId -> Outcome, findings: InvId -> seq<string>, draft: InvId -> Option<string>)

  class Orchestrator {
    const db: Shared
    const world: World
    const scheduler: Scheduler
    const signals: SignalPoller
    // self.agents: the (task type, agent) pairs an object was built for
    var agents: set<(string, AgentId)>
    // the run of the whole system so far, and this orchestrator's number in it
    ghost var trace: seq<Event>
    ghost const p: nat

    ghost function Reached(): State
      reads this
    {
      Run(INIT, trace)
    }

    // The tables are those the recorded run ends in
    ghost predicate Valid()
      reads this, db
    {
      && scheduler.db == db && signals.db == db && scheduler.world == world && signals.world == world
      && Reached().tasks == db.tasks && Reached().invs == db.invs && Reached().signals == db.signals
      && p < |Reached().procs|
    }

    ghost predicate Between()
      reads this, db
    {
      Valid() && Reached().procs[p].Idle?
    }

    // In the middle of a tick: at the given place in the handler of batch[at]
    ghost predicate At(batch: seq<Ticket>, at: nat, job: Job)
      reads this, db
    {
      Valid() && Reached().procs[p] == Busy(batch, at, job)
    }

    constructor (db: Shared, world: World, ghost trace: seq<Event>)
      requires Run(INIT, trace).tasks == db.tasks && Run(INIT, trace).invs == db.invs
      requires Run(INIT, trace).signals == db.signals
      ensures this.db == db && this.world == world && Between() && agents == {} && this.trace == trace + [Boot]
      ensures fresh(scheduler) && fresh(signals)
    {
      this.db, this.world := db, world;
      scheduler := new Scheduler(db, world);
      signals := new SignalPoller(db, world);
      agents := {};
      this.trace := trace + [Boot];
      p := |Run(INIT, trace).procs|;
      new;
      assert this.trace[..|this.trace| - 1] == trace;
    }

    // Record that this orchestrator's next statement ran, or raised
    ghost method Advance(fault: Fault, c: Choice)
      requires p < |Reached().procs|
      modifies this`trace
      ensures trace == old(trace) + [Step(p, fault, c)]
      ensures Reached() == StepOf(old(Reached()), p, fault, c)
    {
      trace := trace + [Step(p, fault, c)];
      assert trace[..|trace| - 1] == old(trace);
    }

    /* ---------- force_tick ---------- */

    // One get_pending_task of the loop over the registry
    method Claim(agent: AgentId, ty: nat, ghost batch: seq<Ticket>, ghost at: nat)
      returns (ok: bool, task: Option<TaskId>)
      requires At(batch, at, Claiming(agent, ty)) && ty < |REGISTRY|
      modifies this`trace, scheduler, world, db
      ensures old(world.calls) <= world.calls && (ok <==> world.Calm(old(world.calls), world.calls))
      ensures db.invs == old(db.invs) && db.signals == old(db.signals) && old(trace) <= trace
      ensures !ok ==> Between()
      ensures ok && task.None? ==> At(batch, at, Claiming(agent, ty + 1))
      ensures ok && task.None? ==> NoneWaits(old(db.tasks), agent, Some(REGISTRY[ty])) && db.tasks == old(db.tasks)
      ensures ok && task.Some? ==> At(batch, at, Building(agent, ty, task.value))
      ensures ok && task.Some? ==> Oldest(old(db.tasks), task.value, agent, Some(REGISTRY[ty]))
      ensures ok && task.Some? ==> db.tasks == old(db.tasks)[task.value := old(db.tasks)[task.value].(status := Running)]
    {
      var fault;
      fault, task := scheduler.GetPendingTask(agent, Some(REGISTRY[ty]));
      Advance(fault, NOTHING.(pick := task));
      ok := fault.NoFault?;
    }

    // agent.run comes back
    ghost method Execute(agent: AgentId, ty: nat, task: TaskId, outcome: Outcome, batch: seq<Ticket>, at: nat)
      requires At(batch, at, Executing(agent, ty, task))
      modifies this`trace
      ensures old(trace) <= trace
      ensures outcome.Found? ==> At(batch, at, Completing(agent, ty, task, outcome.finding))
      ensures outcome.AgentError? ==> At(batch, at, Failing(agent, ty, task, outcome.error))
      ensures outcome.Threw? ==> At(batch, at, Recovering(agent, ty, task, outcome.error))
    {
      Advance(NoFault, NOTHING.(outcome := outcome));
    }

    // complete_task or fail_task for a run that returned; error is that of an exception, if one escapes
    method Report(ghost agent: AgentId, ghost ty: nat, task: TaskId, outcome: Outcome,
                  ghost batch: seq<Ticket>, ghost at: nat)
      returns (raised: bool, error: string)
      requires outcome.Found? ==> At(batch, at, Completing(agent, ty, task, outcome.finding))
      requires outcome.AgentError? ==> At(batch, at, Failing(agent, ty, task, outcome.error))
      requires !outcome.Threw? && task < |db.tasks|
      modifies this`trace, scheduler, world, db
      ensures db.invs == old(db.invs) && db.signals == old(db.signals) && old(trace) <= trace
      ensures old(world.calls) <= world.calls && (!raised <==> world.Calm(old(world.calls), world.calls))
      ensures raised ==> At(batch, at, Recovering(agent, ty, task, error))
      ensures !raised ==> At(batch, at, Claiming(agent, ty + 1))
      ensures EndsAt(old(db.tasks), db.tasks, task) || (raised && db.tasks == old(db.tasks))
      ensures !raised ==> db.tasks == old(db.tasks)[task := Recorded(old(db.tasks)[task], outcome)]
    {
      error := *;
      var fault;
      if outcome.AgentError? {
        fault := scheduler.FailTask(task, outcome.error);
      } else {
        fault := scheduler.CompleteTask(task, outcome.finding);
      }
      Advance(fault, NOTHING.(text := error));
      raised := !fault.NoFault?;
    }

    // The except clause
    method Recover(ghost agent: AgentId, ghost ty: nat, task: TaskId, error: string,
                   ghost batch: seq<Ticket>, ghost at: nat)
      returns (ok: bool)
      requires At(batch, at, Recovering(agent, ty, task, error)) && task < |db.tasks|
      modifies this`trace, scheduler, world, db
      ensures db.invs == old(db.invs) && db.signals == old(db.signals) && old(trace) <= trace
      ensures old(world.calls) <= world.calls && (ok <==> world.Calm(old(world.calls), world.calls))
      ensures !ok ==> Between()
      ensures ok ==> At(batch, at, Claiming(agent, ty + 1)) && EndsAt(old(db.tasks), db.tasks, task)
      ensures ok ==> db.tasks == old(db.tasks)[task := old(db.tasks)[task].(status := Failed, result := TaskError(error))]
    {
      var fault := scheduler.FailTask(task, error);
      Advance(fault, NOTHING);
      ok := fault.NoFault?;
    }

    // The agent object for this type and agent, built on first use; building it can raise
    method Build(agent: AgentId, ty: nat, ghost task: TaskId, ghost batch: seq<Ticket>, ghost at: nat) returns (ok: bool)
      requires At(batch, at, Building(agent, ty, task)) && ty < |REGISTRY|
      modifies this`trace, this`agents, world
      ensures old(world.calls) <= world.calls && (ok <==> world.Calm(old(world.calls), world.calls))
      ensures (REGISTRY[ty], agent) in old(agents) ==> world.calls == old(world.calls)
      ensures old(trace) <= trace
      ensures agents == if ok then old(agents) + {(REGISTRY[ty], agent)} else old(agents)
      ensures if ok then At(batch, at, Executing(agent, ty, task)) else Between()
    {
      ok := true;
      var key := (REGISTRY[ty], agent);
      if key !in agents {
        var fault := world.Call();
        ok := fault.NoFault?;
        if ok {
          agents := agents + {key};
        }
      }
      Advance(if ok then NoFault else RaiseBefore, NOTHING);
    }

    // From a claimed task to the next type of the registry: the body of the loop after the claim
    method Work(agent: AgentId, ty: nat, task: TaskId, outcome: Outcome, ghost batch: seq<Ticket>, ghost at: nat)
      returns (ok: bool)
      requires At(batch, at, Building(agent, ty, task)) && ty < |REGISTRY| && task < |db.tasks|
      modifies this`trace, this`agents, scheduler, world, db
      ensures db.invs == old(db.invs) && db.signals == old(db.signals) && old(trace) <= trace
      ensures old(world.calls) <= world.calls
      ensures old(agents) <= agents <= old(agents) + {(REGISTRY[ty], agent)}
      ensures !ok ==> Between()
      ensures ok ==> At(batch, at, Claiming(agent, ty + 1)) && EndsAt(old(db.tasks), db.tasks, task)
      ensures ok ==> (REGISTRY[ty], agent) in agents
      ensures world.Calm(old(world.calls), world.calls) ==>
        ok && db.tasks == old(db.tasks)[task := Recorded(old(db.tasks)[task], outcome)]
    {
      ok := Build(agent, ty, task, batch, at);
      if !ok {
        return;
      }
      Execute(agent, ty, task, outcome, batch, at);
      var raised, error := outcome.Threw?, if outcome.Threw? then outcome.error else "";
      if !raised {
        raised, error := Report(agent, ty, task, outcome, batch, at);
      }
      if raised {
        ok := Recover(agent, ty, task, error, batch, at);
      }
    }

    // One round of the loop over the registry; first is the table the handler found
    method Serve(agent: AgentId, ty: nat, run: TaskId -> Outcome, ghost first: seq<Task>,
                 ghost batch: seq<Ticket>, ghost at: nat)
      returns (ok: bool)
      requires At(batch, at, Claiming(agent, ty)) && ty < |REGISTRY| && Ticked(first, db.tasks, agent, ty)
      modifies this`trace, this`agents, scheduler, world, db
      ensures db.invs == old(db.invs) && db.signals == old(db.signals) && old(trace) <= trace && old(agents) <= agents
      ensures old(world.calls) <= world.calls
      ensures !ok ==> Between()
      ensures ok ==> At(batch, at, Claiming(agent, ty + 1)) && Ticked(first, db.tasks, agent, ty + 1)
      ensures world.Calm(old(world.calls), world.calls) ==>
        ok && (AllRecorded(first, old(db.tasks), run) ==> AllRecorded(first, db.tasks, run))
    {
      var task;
      ok, task := Claim(agent, ty, batch, at);
      if !ok {
        return;
      }
      if task.Some? {
        ok := Work(agent, ty, task.value, run(task.value), batch, at);
        if !ok {
          return;
        }
      }
      OneMoreType(first, old(db.tasks), db.tasks, agent, ty, task);
      if world.Calm(old(world.calls), world.calls) && task.Some? && AllRecorded(first, old(db.tasks), run) {
        OneMoreRecorded(first, old(db.tasks), db.tasks, agent, ty, task.value, run);
      }
    }

    /** A force_tick for an agent. Whatever raises, the tables stay those of a run. When the handler
        returns normally, each registered type has given up one oldest pending task of the agent,
        now complete or failed, if it had any, and no other task has changed. It does return
        normally when no call raises, and each task then holds what agent.run made of it. */
    method HandleAgentTick(agent: AgentId, run: TaskId -> Outcome, ghost batch: seq<Ticket>, ghost at: nat)
      returns (ok: bool)
      requires At(batch, at, Claiming(agent, 0))
      modifies this`trace, this`agents, scheduler, world, db
      ensures db.invs == old(db.invs) && db.signals == old(db.signals) && old(trace) <= trace && old(agents) <= agents
      ensures old(world.calls) <= world.calls
      ensures !ok ==> Between()
      ensures ok ==> At(batch, at, Marking) && Ticked(old(db.tasks), db.tasks, agent, |REGISTRY|)
      ensures world.Calm(old(world.calls), world.calls) ==> ok && AllRecorded(old(db.tasks), db.tasks, run)
    {
      for ty := 0 to |REGISTRY|
        invariant At(batch, at, Claiming(agent, ty))
        invariant db.invs == old(db.invs) && db.signals == old(db.signals) && old(trace) <= trace && old(agents) <= agents
        invariant old(world.calls) <= world.calls
        invariant Ticked(old(db.tasks), db.tasks, agent, ty)
        invariant world.Calm(old(world.calls), world.calls) ==> AllRecorded(old(db.tasks), db.tasks, run)
      {
        ok := Serve(agent, ty, run, old(db.tasks), batch, at);
        if !ok {
          return;
        }
      }
      Advance(NoFault, NOTHING);
      ok := true;
    }

    /* ---------- start_investigation ---------- */

    method List(ghost act: bool, ghost batch: seq<Ticket>, ghost at: nat) returns (ok: bool, ids: seq<InvId>)
      requires At(batch, at, Listing(act))
      modifies this`trace, scheduler, world
      ensures old(trace) <= trace && old(world.calls) <= world.calls && (ok <==> world.Calm(old(world.calls), world.calls))
      ensures !ok ==> Between()
      ensures ok ==> At(batch, at, Counting(ids, act)) && IsActiveList(db.invs, ids)
    {
      var fault;
      fault, ids := scheduler.GetActiveInvestigations();
      Advance(fault, NOTHING.(listed := ids));
      ok := fault.NoFault?;
    }

    method Count(inv: InvId, ghost todo: seq<InvId>, ghost act: bool, ghost batch: seq<Ticket>, ghost at: nat)
      returns (ok: bool, pending: nat)
      requires At(batch, at, Counting(todo, act)) && todo != [] && todo[0] == inv
      modifies this`trace, scheduler, world
      ensures old(trace) <= trace && old(world.calls) <= world.calls && (ok <==> world.Calm(old(world.calls), world.calls))
      ensures !ok ==> Between()
      ensures ok ==> (pending == 0 <==> Finished(db.tasks, inv))
      ensures ok ==> At(batch, at, if act && pending == 0 then Asking(todo) else Counting(todo[1..], act))
    {
      var fault;
      fault, pending := scheduler.CountPendingTasks(inv);
      Advance(fault, NOTHING);
      ok := fault.NoFault?;
    }

    // The inv_ids loop has ended
    ghost method Leave(act: bool, batch: seq<Ticket>, at: nat)
      requires At(batch, at, Counting([], act))
      modifies this`trace
      ensures old(trace) <= trace && At(batch, at, Marking)
    {
      Advance(NoFault, NOTHING);
    }

    /** Only looks: it counts the unfinished tasks of every active investigation. */
    method HandleInvestigationStart(ghost batch: seq<Ticket>, ghost at: nat) returns (ok: bool)
      requires At(batch, at, Listing(false))
      modifies this`trace, scheduler, world
      ensures old(trace) <= trace && old(world.calls) <= world.calls
      ensures world.Calm(old(world.calls), world.calls) ==> ok
      ensures !ok ==> Between()
      ensures ok ==> At(batch, at, Marking)
    {
      var ids;
      ok, ids := List(false, batch, at);
      if !ok {
        return;
      }
      assert ids[0..] == ids;
      for i := 0 to |ids|
        invariant ok && At(batch, at, Counting(ids[i..], false)) && old(trace) <= trace && old(world.calls) <= world.calls
      {
        var pending;
        ok, pending := Count(ids[i], ids[i..], false, batch, at);
        if !ok {
          return;
        }
        assert ids[i..][1..] == ids[i + 1..];
      }
      Leave(false, batch, at);
    }

    /* ---------- trigger_consensus ---------- */

    // The question and the findings; rows is what the server has
    method Gather(inv: InvId, rows: seq<string>, ghost todo: seq<InvId>, ghost batch: seq<Ticket>, ghost at: nat)
      returns (ok: bool, findings: seq<string>)
      requires At(batch, at, Asking(todo)) && todo != [] && todo[0] == inv
      modifies this`trace, scheduler, world
      ensures old(trace) <= trace && old(world.calls) <= world.calls && (ok <==> world.Calm(old(world.calls), world.calls))
      ensures findings == if ok then rows else []
      ensures !ok ==> Between()
      ensures ok ==> At(batch, at, if rows == [] then Counting(todo[1..], true) else Drafting(todo))
    {
      findings := [];
      var fault := scheduler.GetInvestigationQuestion();
      Advance(fault, NOTHING);
      if !fault.NoFault? {
        return false, [];
      }
      fault, findings := scheduler.GetInvestigationFindings(rows);
      Advance(fault, NOTHING.(found := rows != []));
      ok := fault.NoFault?;
    }

    // generate_report answers, or raises
    ghost method Draft(report: Option<string>, todo: seq<InvId>, batch: seq<Ticket>, at: nat)
      requires At(batch, at, Drafting(todo)) && todo != []
      modifies this`trace
      ensures old(trace) <= trace
      ensures report.None? ==> At(batch, at, Counting(todo[1..], true))
      ensures report.Some? ==> At(batch, at, Reporting(todo, report.value))
    {
      Advance(if report.Some? then NoFault else RaiseBefore, NOTHING.(text := if report.Some? then report.value else ""));
    }

    method WriteReport(inv: InvId, report: string, ghost todo: seq<InvId>, ghost batch: seq<Ticket>, ghost at: nat)
      returns (written: bool)
      requires At(batch, at, Reporting(todo, report)) && todo != [] && todo[0] == inv && inv < |db.invs|
      modifies this`trace, scheduler, world, db
      ensures db.tasks == old(db.tasks) && db.signals == old(db.signals) && old(trace) <= trace
      ensures old(world.calls) <= world.calls && (written <==> world.Calm(old(world.calls), world.calls))
      ensures At(batch, at, if written then Finishing(todo) else Counting(todo[1..], true))
      ensures db.invs == old(db.invs)[inv := old(db.invs)[inv].(report := Some(report))] ||
              (!written && db.invs == old(db.invs))
    {
      var fault := scheduler.SetInvestigationReport(inv, report);
      Advance(fault, NOTHING);
      written := fault.NoFault?;
    }

    method WriteComplete(inv: InvId, ghost todo: seq<InvId>, ghost batch: seq<Ticket>, ghost at: nat)
      requires At(batch, at, Finishing(todo)) && todo != [] && todo[0] == inv && inv < |db.invs|
      modifies this`trace, scheduler, world, db
      ensures db.tasks == old(db.tasks) && db.signals == old(db.signals) && old(trace) <= trace
      ensures old(world.calls) <= world.calls
      ensures At(batch, at, Counting(todo[1..], true))
      ensures db.invs == old(db.invs)[inv := old(db.invs)[inv].(status := Done)] ||
              (!world.Calm(old(world.calls), world.calls) && db.invs == old(db.invs))
    {
      var fault := scheduler.SetInvestigationStatus(inv, Done);
      Advance(fault, NOTHING);
    }

    /** _run_consensus writes the report before the status, and neither unless the model drafted one.
        When no call raises, findings and a draft are all it takes to write both. */
    method RunConsensus(inv: InvId, given: Answers, ghost todo: seq<InvId>, ghost batch: seq<Ticket>, ghost at: nat)
      returns (ok: bool)
      requires At(batch, at, Asking(todo)) && todo != [] && todo[0] == inv && inv < |db.invs|
      modifies this`trace, scheduler, world, db
      ensures db.tasks == old(db.tasks) && db.signals == old(db.signals) && old(trace) <= trace
      ensures old(world.calls) <= world.calls
      ensures !ok ==> Between() && db.invs == old(db.invs)
      ensures ok ==> At(batch, at, Counting(todo[1..], true))
      ensures inv < |db.invs| && db.invs == old(db.invs)[inv := db.invs[inv]]
      ensures Concluded(old(db.invs)[inv], db.invs[inv], given.draft(inv))
      ensures given.findings(inv) == [] || given.draft(inv).None? ==> db.invs == old(db.invs)
      ensures world.Calm(old(world.calls), world.calls) && given.findings(inv) != [] && given.draft(inv).Some? ==>
        db.invs[inv] == old(db.invs)[inv].(report := given.draft(inv), status := Done)
      ensures world.Calm(old(world.calls), world.calls) ==> ok
    {
      var findings;
      ok, findings := Gather(inv, given.findings(inv), todo, batch, at);
      if findings == [] {
        return;
      }
      var report := given.draft(inv);
      Draft(report, todo, batch, at);
      if report.None? {
        return;
      }
      var written := WriteReport(inv, report.value, todo, batch, at);
      if written {
        WriteComplete(inv, todo, batch, at);
      }
    }

    // One round of the inv_ids loop
    method Check(inv: InvId, given: Answers, ghost todo: seq<InvId>, ghost batch: seq<Ticket>, ghost at: nat)
      returns (ok: bool)
      requires At(batch, at, Counting(todo, true)) && todo != [] && todo[0] == inv && inv < |db.invs|
      modifies this`trace, scheduler, world, db
      ensures db.tasks == old(db.tasks) && db.signals == old(db.signals) && old(trace) <= trace
      ensures old(world.calls) <= world.calls
      ensures !ok ==> Between()
      ensures ok ==> At(batch, at, Counting(todo[1..], true))
      ensures inv < |db.invs| && db.invs == old(db.invs)[inv := db.invs[inv]]
      ensures Concluded(old(db.invs)[inv], db.invs[inv], given.draft(inv))
      ensures db.invs[inv] != old(db.invs)[inv] ==> Reportable(inv, given, db.tasks)
      ensures world.Calm(old(world.calls), world.calls) ==> ok
      ensures world.Calm(old(world.calls), world.calls) && Reportable(inv, given, db.tasks) ==>
        db.invs[inv] == old(db.invs)[inv].(report := given.draft(inv), status := Done)
    {
      var pending;
      ok, pending := Count(inv, todo, true, batch, at);
      if ok && pending == 0 {
        ok := RunConsensus(inv, given, todo, batch, at);
      }
    }

    // The same, as part of the whole loop; first is the table the handler found
    method CheckNext(inv: InvId, given: Answers, ghost first: seq<Investigation>, ghost calm: bool,
                     ghost todo: seq<InvId>, ghost batch: seq<Ticket>, ghost at: nat)
      returns (ok: bool)
      requires At(batch, at, Counting(todo, true)) && todo != [] && todo[0] == inv
      requires Checking(first, db.invs, db.tasks, given, todo, calm)
      modifies this`trace, scheduler, world, db
      ensures db.tasks == old(db.tasks) && db.signals == old(db.signals) && old(trace) <= trace
      ensures old(world.calls) <= world.calls
      ensures world.Calm(old(world.calls), world.calls) ==> ok
      ensures if ok then At(batch, at, Counting(todo[1..], true)) else Between()
      ensures Checked(first, db.invs, db.tasks, given)
      ensures ok ==> Checking(first, db.invs, db.tasks, given, todo[1..], calm && world.Calm(old(world.calls), world.calls))
    {
      ok := Check(inv, given, todo, batch, at);
      OneMoreChecked(first, old(db.invs), db.invs, db.tasks, given, todo);
      if calm && world.Calm(old(world.calls), world.calls) {
        OneMoreDone(first, old(db.invs), db.invs, db.tasks, given, todo);
      }
    }

    /** A consensus check touches only investigations that were active and have no task pending or
        running, and moves each at most from active to reported to complete. When no call raises, it
        completes every active investigation whose tasks have all ended, that has findings and for
        which the model drafts a report, with that report, and leaves all others alone. */
    method HandleConsensusCheck(given: Answers, ghost batch: seq<Ticket>, ghost at: nat) returns (ok: bool)
      requires At(batch, at, Listing(true))
      modifies this`trace, scheduler, world, db
      ensures db.tasks == old(db.tasks) && db.signals == old(db.signals) && old(trace) <= trace
      ensures old(world.calls) <= world.calls
      ensures !ok ==> Between()
      ensures ok ==> At(batch, at, Marking)
      ensures Checked(old(db.invs), db.invs, db.tasks, given)
      ensures world.Calm(old(world.calls), world.calls) ==> ok && AllChecked(old(db.invs), db.invs, db.tasks, given)
    {
      var ids;
      ok, ids := List(true, batch, at);
      if !ok {
        return;
      }
      CheckStarts(db.invs, db.tasks, given, ids);
      assert ids[0..] == ids;
      for i := 0 to |ids|
        invariant ok && At(batch, at, Counting(ids[i..], true)) && old(trace) <= trace
        invariant db.tasks == old(db.tasks) && db.signals == old(db.signals) && old(world.calls) <= world.calls
        invariant Checking(old(db.invs), db.invs, db.tasks, given, ids[i..], world.Calm(old(world.calls), world.calls))
      {
        ghost var calm := world.Calm(old(world.calls), world.calls);
        ok := CheckNext(ids[i], given, old(db.invs), calm, ids[i..], batch, at);
        if !ok {
          return;
        }
        assert ids[i..][1..] == ids[i + 1..];
      }
      CheckEnds(old(db.invs), db.invs, db.tasks, given, ids[|ids|..], world.Calm(old(world.calls), world.calls));
      Leave(true, batch, at);
    }

    /* ---------- the loops ---------- */

    /** What the signal's type asks for, and nothing else. */
    method Handle(signal: Ticket, given: Answers, ghost batch: seq<Ticket>, ghost at: nat) returns (ok: bool)
      requires At(batch, at, JobFor(signal))
      modifies this`trace, this`agents, scheduler, world, db
      ensures db.signals == old(db.signals) && old(trace) <= trace && old(agents) <= agents
      ensures old(world.calls) <= world.calls
      ensures !ok ==> Between()
      ensures ok ==> At(batch, at, Marking)
      ensures world.Calm(old(world.calls), world.calls) ==> ok
      ensures ok ==> Handled(signal, Rows(old(db.tasks), old(db.invs)), Rows(db.tasks, db.invs), given,
                             world.Calm(old(world.calls), world.calls))
    {
      ok := true;
      if signal.kind == "force_tick" && signal.agent.Some? {
        ok := HandleAgentTick(signal.agent.value, given.run, batch, at);
      } else if signal.kind == "start_investigation" {
        ok := HandleInvestigationStart(batch, at);
      } else if signal.kind == "trigger_consensus" {
        ok := HandleConsensusCheck(given, batch, at);
      }
    }

    method Fetch() returns (ok: bool, batch: seq<Ticket>)
      requires Between()
      modifies this`trace, signals, world
      ensures old(trace) <= trace && old(world.calls) <= world.calls && (ok <==> world.Calm(old(world.calls), world.calls))
      ensures !ok ==> Between()
      ensures ok ==> At(batch, 0, Dispatch) && IsPoll(db.signals, batch)
    {
      var fault;
      fault, batch := signals.Poll();
      Advance(fault, NOTHING.(batch := batch));
      ok := fault.NoFault?;
    }

    // The head of the signal loop
    ghost method Dispatched(batch: seq<Ticket>, at: nat)
      requires At(batch, at, Dispatch)
      modifies this`trace
      ensures old(trace) <= trace
      ensures if at < |batch| then At(batch, at, JobFor(batch[at])) else Between()
    {
      Advance(NoFault, NOTHING);
    }

    method Mark(id: SignalId, ghost batch: seq<Ticket>, ghost at: nat) returns (ok: bool, ghost marked: bool)
      requires At(batch, at, Marking) && at < |batch| && batch[at].id == id
      modifies this`trace, signals, world, db
      ensures db.invs == old(db.invs) && db.tasks == old(db.tasks) && old(trace) <= trace
      ensures old(world.calls) <= world.calls && (ok <==> world.Calm(old(world.calls), world.calls))
      ensures if ok then marked && At(batch, at + 1, Dispatch) else Between()
      ensures db.signals == if marked then Set(old(db.signals), id) else old(db.signals)
    {
      var fault := signals.MarkProcessed(id);
      Advance(fault, NOTHING);
      ok, marked := fault.NoFault?, !fault.RaiseBefore?;
    }

    // One round of the signal loop; rows grows by what the handler left if it returned
    method Process(signal: Ticket, given: nat -> Answers, ghost batch: seq<Ticket>, at: nat,
                   ghost rows: seq<Rows>, ghost calm: bool)
      returns (ok: bool, ghost marked: bool, ghost rows': seq<Rows>)
      requires At(batch, at, Dispatch) && at < |batch| && batch[at] == signal
      requires |rows| == at + 1 && rows[at] == Rows(db.tasks, db.invs) && AllHandled(batch, rows, given, calm)
      modifies this`trace, this`agents, scheduler, signals, world, db
      ensures old(trace) <= trace && old(agents) <= agents && old(world.calls) <= world.calls
      ensures if ok then marked && At(batch, at + 1, Dispatch) else Between()
      ensures world.Calm(old(world.calls), world.calls) ==> ok
      ensures rows' == rows || rows' == rows + [Rows(db.tasks, db.invs)]
      ensures marked ==> rows' != rows
      ensures AllHandled(batch, rows', given, calm && world.Calm(old(world.calls), world.calls))
      ensures db.signals == if marked then Set(old(db.signals), signal.id) else old(db.signals)
    {
      marked, rows' := false, rows;
      Dispatched(batch, at);
      ok := Handle(signal, given(at), batch, at);
      if ok {
        rows' := rows' + [Rows(db.tasks, db.invs)];
        ok, marked := Mark(signal.id, batch, at);
      }
      StillHandled(batch, rows, given, calm, calm && world.Calm(old(world.calls), world.calls));
      if rows' != rows {
        OneMoreHandled(batch, rows, Rows(db.tasks, db.invs), given, calm && world.Calm(old(world.calls), world.calls));
      }
    }

    // The signal loop
    method ProcessAll(batch: seq<Ticket>, given: nat -> Answers, ghost calm: bool)
      returns (ok: bool, ghost n: nat, ghost rows: seq<Rows>)
      requires At(batch, 0, Dispatch)
      modifies this`trace, this`agents, scheduler, signals, world, db
      ensures Between() && old(trace) <= trace && old(agents) <= agents && old(world.calls) <= world.calls
      ensures n <= |batch| && (ok ==> n == |batch|)
      ensures db.signals == Processed(old(db.signals), batch, n)
      ensures n < |rows| <= |batch| + 1 && rows[0] == Rows(old(db.tasks), old(db.invs))
      ensures ok ==> rows[|batch|] == Rows(db.tasks, db.invs)
      ensures world.Calm(old(world.calls), world.calls) ==> ok
      ensures AllHandled(batch, rows, given, calm && world.Calm(old(world.calls), world.calls))
    {
      n, rows := 0, [Rows(db.tasks, db.invs)];
      for at := 0 to |batch|
        invariant n == at && At(batch, at, Dispatch)
        invariant old(trace) <= trace && old(agents) <= agents && old(world.calls) <= world.calls
        invariant db.signals == Processed(old(db.signals), batch, at)
        invariant |rows| == at + 1 && rows[0] == Rows(old(db.tasks), old(db.invs)) && rows[at] == Rows(db.tasks, db.invs)
        invariant AllHandled(batch, rows, given, calm && world.Calm(old(world.calls), world.calls))
      {
        ghost var marked;
        ok, marked, rows :=
          Process(batch[at], given, batch, at, rows, calm && world.Calm(old(world.calls), world.calls));
        n := if marked then at + 1 else at;
        if !ok {
          return;
        }
      }
      Dispatched(batch, |batch|);
      ok := true;
    }

    /** One tick handles the unprocessed signals oldest first and marks each one after its handler
        returned. The signals it processed are the first n of the batch: all of them when nothing
        raised, and otherwise the rest, the failed one included, stays for the next poll. rows[k] is
        what the tables held before signal k was handled and rows[k + 1] what its handler left. */
    method Tick(given: nat -> Answers)
      returns (ok: bool, ghost batch: seq<Ticket>, ghost n: nat, ghost rows: seq<Rows>)
      requires Between()
      modifies this`trace, this`agents, scheduler, signals, world, db
      ensures Between() && old(trace) <= trace && old(agents) <= agents && old(world.calls) <= world.calls
      ensures n <= |batch| && (ok ==> n == |batch|)
      ensures ok || n > 0 ==> IsPoll(old(db.signals), batch)
      ensures db.signals == Processed(old(db.signals), batch, n)
      ensures n < |rows| <= |batch| + 1 && rows[0] == Rows(old(db.tasks), old(db.invs))
      ensures ok ==> rows[|batch|] == Rows(db.tasks, db.invs)
      ensures world.Calm(old(world.calls), world.calls) ==> ok
      ensures AllHandled(batch, rows, given, world.Calm(old(world.calls), world.calls))
    {
      rows := [Rows(db.tasks, db.invs)];
      var polled;
      ok, polled := Fetch();
      batch, n := polled, 0;
      if ok {
        ok, n, rows := ProcessAll(polled, given, world.Calm(old(world.calls), world.calls));
      }
    }

    /** start: any number of rounds, whatever they raise. The tables it leaves are those of a run of
        the protocol, so what it reads as complete is justified; and when no call raises, one round
        is enough to process every signal. */
    method Start(rounds: nat, given: (nat, nat) -> Answers)
      requires Between()
      modifies this`trace, this`agents, scheduler, signals, world, db
      ensures Between() && old(trace) <= trace && old(world.calls) <= world.calls
      ensures forall i :: 0 <= i < |db.invs| && db.invs[i].status.Done? ==>
        HasTask(db.tasks, i) && Finished(db.tasks, i) && db.invs[i].report.Some?
      ensures forall t :: 0 <= t < |db.tasks| && db.tasks[t].taskType !in REGISTRY ==> db.tasks[t].status.Pending?
      ensures world.Calm(old(world.calls), world.calls) && rounds > 0 ==>
        forall i :: 0 <= i < |db.signals| ==> db.signals[i].processed
    {
      for round := 0 to rounds
        invariant Between() && old(trace) <= trace && old(world.calls) <= world.calls
        invariant world.Calm(old(world.calls), world.calls) && round > 0 ==> NoneUnprocessed(db.signals)
      {
        ghost var before := db.signals;
        var ok, batch, n, rows := Tick((at: nat) => given(round, at));
        if ok {
          BatchProcessed(before, batch);
        }
      }
      Reachable(trace);
      UnregisteredNeverRuns(trace);
    }
  }

  /* ---------- what one signal does to the rows ---------- */

  datatype Rows = Rows(tasks: seq<Task>, invs: seq<Investigation>)

  /** A handler of this signal returned normally, whatever was raised and caught inside it; when
      nothing was, what it wrote is settled too. */
  ghost predicate Handled(signal: Ticket, a: Rows, b: Rows, given: Answers, calm: bool) {
    if signal.kind == "force_tick" && signal.agent.Some? then
      && b.invs == a.invs && Ticked(a.tasks, b.tasks, signal.agent.value, |REGISTRY|)
      && (calm ==> AllRecorded(a.tasks, b.tasks, given.run))
    else if signal.kind == "trigger_consensus" then
      && b.tasks == a.tasks && Checked(a.invs, b.invs, a.tasks, given)
      && (calm ==> AllChecked(a.invs, b.invs, a.tasks, given))
    else b == a
  }

  // The handler of signal k took rows[k] to rows[k + 1]
  ghost predicate HandledAt(batch: seq<Ticket>, rows: seq<Rows>, given: nat -> Answers, calm: bool, k: nat) {
    k < |batch| && k + 1 < |rows| && Handled(batch[k], rows[k], rows[k + 1], given(k), calm)
  }

  ghost predicate AllHandled(batch: seq<Ticket>, rows: seq<Rows>, given: nat -> Answers, calm: bool) {
    forall k: nat :: k < |rows| - 1 ==> HandledAt(batch, rows, given, calm, k)
  }

  lemma StillHandled(batch: seq<Ticket>, rows: seq<Rows>, given: nat -> Answers, calm: bool, calm': bool)
    requires AllHandled(batch, rows, given, calm) && (calm' ==> calm)
    ensures AllHandled(batch, rows, given, calm')
  {
    forall k: nat | k < |rows| - 1 ensures HandledAt(batch, rows, given, calm', k) {
      assert HandledAt(batch, rows, given, calm, k);
    }
  }

  lemma OneMoreHandled(batch: seq<Ticket>, rows: seq<Rows>, last: Rows, given: nat -> Answers, calm: bool)
    requires 0 < |rows| <= |batch| && AllHandled(batch, rows, given, calm)
    requires Handled(batch[|rows| - 1], rows[|rows| - 1], last, given(|rows| - 1), calm)
    ensures AllHandled(batch, rows + [last], given, calm)
  {
    forall k: nat | k < |rows| ensures HandledAt(batch, rows + [last], given, calm, k) {
      if k < |rows| - 1 { assert HandledAt(batch, rows, given, calm, k); }
    }
  }

  // The row of a task whose run came back with this outcome
  function Recorded(task: Task, outcome: Outcome): Task {
    match outcome
    case Found(finding) => task.(status := Complete, result := Finding(finding))
    case AgentError(error) => task.(status := Failed, result := TaskError(error))
    case Threw(error) => task.(status := Failed, result := TaskError(error))
  }

  ghost predicate RowRecorded(a: Task, b: Task, outcome: Outcome) {
    b == a || b == Recorded(a, outcome)
  }

  // Each task that changed holds what its run came back with
  ghost predicate AllRecorded(a: seq<Task>, b: seq<Task>, run: TaskId -> Outcome) {
    |a| == |b| && forall t: TaskId :: t < |a| ==> RowRecorded(a[t], b[t], run(t))
  }

  lemma OneMoreRecorded(a: seq<Task>, b: seq<Task>, c: seq<Task>, agent: AgentId, n: nat, task: TaskId,
                        run: TaskId -> Outcome)
    requires Ticked(a, b, agent, n) && n < |REGISTRY| && AllRecorded(a, b, run)
    requires Oldest(b, task, agent, Some(REGISTRY[n]))
    requires c == b[task := Recorded(b[task].(status := Running), run(task))]
    ensures AllRecorded(a, c, run)
  {
    RowAdvances(a, b, agent, n, task);
  }

  // Its tasks have all ended, it has findings, and the model drafts a report for it
  ghost predicate Reportable(inv: InvId, given: Answers, tasks: seq<Task>) {
    Finished(tasks, inv) && given.findings(inv) != [] && given.draft(inv).Some?
  }

  // In the loop, with these investigations still to come
  ghost predicate Checking(a: seq<Investigation>, b: seq<Investigation>, tasks: seq<Task>, given: Answers,
                           left: seq<InvId>, calm: bool) {
    Checked(a, b, tasks, given) && Untouched(a, b, left) && (calm ==> DoneExcept(a, b, tasks, given, left))
  }

  lemma CheckStarts(a: seq<Investigation>, tasks: seq<Task>, given: Answers, ids: seq<InvId>)
    requires IsActiveList(a, ids)
    ensures Checking(a, a, tasks, given, ids, true)
  {
  }

  lemma CheckEnds(a: seq<Investigation>, b: seq<Investigation>, tasks: seq<Task>, given: Answers,
                  left: seq<InvId>, calm: bool)
    requires Checking(a, b, tasks, given, left, calm) && left == []
    ensures Checked(a, b, tasks, given) && (calm ==> AllChecked(a, b, tasks, given))
  {
  }

  ghost predicate AllChecked(a: seq<Investigation>, b: seq<Investigation>, tasks: seq<Task>, given: Answers) {
    DoneExcept(a, b, tasks, given, [])
  }

  // The check is over for all but these investigations
  ghost predicate DoneExcept(a: seq<Investigation>, b: seq<Investigation>, tasks: seq<Task>, given: Answers,
                             left: seq<InvId>) {
    |a| == |b| && forall i: InvId :: i < |a| ==>
      b[i] == if i !in left && a[i].status != Done && Reportable(i, given, tasks)
              then a[i].(report := given.draft(i), status := Done) else a[i]
  }

  lemma OneMoreDone(a: seq<Investigation>, b: seq<Investigation>, c: seq<Investigation>, tasks: seq<Task>,
                    given: Answers, ids: seq<InvId>)
    requires DoneExcept(a, b, tasks, given, ids) && Untouched(a, b, ids) && ids != []
    requires ids[0] < |c| && c == b[ids[0] := c[ids[0]]]
    requires c[ids[0]] == if Reportable(ids[0], given, tasks)
                          then b[ids[0]].(report := given.draft(ids[0]), status := Done) else b[ids[0]]
    ensures DoneExcept(a, c, tasks, given, ids[1..])
  {
    assert ids == [ids[0]] + ids[1..] && ids[0] !in ids[1..];
  }

  ghost predicate Untouched(a: seq<Investigation>, b: seq<Investigation>, ids: seq<InvId>) {
    && |a| == |b| && (forall j, k :: 0 <= j < k < |ids| ==> ids[j] != ids[k])
    && forall j :: 0 <= j < |ids| ==> ids[j] < |a| && b[ids[j]] == a[ids[j]] && a[ids[j]].Active()
  }

  lemma OneMoreChecked(a: seq<Investigation>, b: seq<Investigation>, c: seq<Investigation>, tasks: seq<Task>,
                       given: Answers, ids: seq<InvId>)
    requires Checked(a, b, tasks, given) && Untouched(a, b, ids) && ids != []
    requires ids[0] < |c| && c == b[ids[0] := c[ids[0]]] && Concluded(b[ids[0]], c[ids[0]], given.draft(ids[0]))
    requires c[ids[0]] != b[ids[0]] ==> Reportable(ids[0], given, tasks)
    ensures Checked(a, c, tasks, given) && Untouched(a, c, ids[1..])
  {
    forall j | 0 <= j < |ids[1..]| ensures ids[1..][j] < |a| && c[ids[1..][j]] == a[ids[1..][j]] {
      assert ids[1..][j] in ids[1..] && ids[1..][j] == ids[j + 1];
    }
  }

  // Unchanged, or given this report, or given this report and completed
  ghost predicate Concluded(a: Investigation, b: Investigation, draft: Option<string>) {
    b == a || (draft.Some? && (b == a.(report := draft) || b == a.(report := draft, status := Done)))
  }

  ghost predicate Checked(a: seq<Investigation>, b: seq<Investigation>, tasks: seq<Task>, given: Answers) {
    |a| == |b| && forall i :: 0 <= i < |a| ==>
      Concluded(a[i], b[i], given.draft(i)) && (b[i] != a[i] ==> a[i].status != Done && Reportable(i, given, tasks))
  }

  // SET processed = true WHERE id = $1
  function Set(signals: seq<Signal>, id: SignalId): seq<Signal> {
    if id < |signals| then signals[id := signals[id].(processed := true)] else signals
  }

  // The first n signals of the batch marked processed
  function Processed(signals: seq<Signal>, batch: seq<Ticket>, n: nat): (marked: seq<Signal>)
    ensures |marked| == |signals|
  {
    if n == 0 || n > |batch| then signals else Set(Processed(signals, batch, n - 1), batch[n - 1].id)
  }

  ghost predicate NoneUnprocessed(signals: seq<Signal>) {
    forall i :: 0 <= i < |signals| ==> signals[i].processed
  }

  lemma {:induction false} ProcessedAt(signals: seq<Signal>, batch: seq<Ticket>, n: nat, i: SignalId)
    requires n <= |batch| && i < |signals|
    ensures Processed(signals, batch, n)[i].processed <==>
      signals[i].processed || exists j :: 0 <= j < n && batch[j].id == i
  {
    if n > 0 {
      ProcessedAt(signals, batch, n - 1, i);
    }
  }

  lemma BatchProcessed(signals: seq<Signal>, batch: seq<Ticket>)
    requires IsPoll(signals, batch)
    ensures NoneUnprocessed(Processed(signals, batch, |batch|))
  {
    forall i | 0 <= i < |signals| ensures Processed(signals, batch, |batch|)[i].processed {
      ProcessedAt(signals, batch, |batch|, i);
      if !signals[i].processed { assert Polled(batch, i); }
    }
  }
}
