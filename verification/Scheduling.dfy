/** The statements of runtime/scheduler.py and runtime/signals.py, run by a process that nothing
    disturbs. Any of them raises when the world has it raise, before or after it takes effect. */
module Scheduling {
  import opened Options
  import opened Tables
  import opened Protocol
  import opened Orders
  import opened Environment

  /* ---------- which task a claim takes ---------- */

  // agent_id = $1 AND status = 'pending' AND ($2::text IS NULL OR task_type = $2)
  predicate Waiting(t: Task, agent: AgentId, taskType: Option<string>) {
    t.status.Pending? && t.agent == agent && (taskType.Some? ==> t.taskType == taskType.value)
  }

  predicate NoneWaits(tasks: seq<Task>, agent: AgentId, taskType: Option<string>) {
    forall u :: 0 <= u < |tasks| ==> !Waiting(tasks[u], agent, taskType)
  }

  predicate Oldest(tasks: seq<Task>, t: TaskId, agent: AgentId, taskType: Option<string>) {
    && t < |tasks| && Waiting(tasks[t], agent, taskType)
    && (forall u :: 0 <= u < |tasks| && Waiting(tasks[u], agent, taskType) ==> tasks[t].createdAt <= tasks[u].createdAt)
  }

  function FirstOldest(tasks: seq<Task>, agent: AgentId, taskType: Option<string>): (t: Option<TaskId>)
    ensures t.None? ==> NoneWaits(tasks, agent, taskType)
    ensures t.Some? ==> Oldest(tasks, t.value, agent, taskType)
  {
    if tasks == [] then None
    else
      var n := |tasks| - 1;
      var before := FirstOldest(tasks[..n], agent, taskType);
      if Waiting(tasks[n], agent, taskType) && (before.Some? ==> tasks[n].createdAt < tasks[before.value].createdAt)
      then Some(n) else before
  }

  class Scheduler {
    const db: Shared
    const world: World
    var pool: bool

    constructor (db: Shared, world: World)
      ensures this.db == db && this.world == world
    {
      this.db, this.world, pool := db, world, false;
    }

    // connect, on first use, and then the statement
    method Await() returns (fault: Fault)
      modifies this, world
      ensures old(world.calls) <= world.calls && (fault.NoFault? <==> world.Calm(old(world.calls), world.calls))
    {
      if !pool {
        fault := world.Call();
        if !fault.NoFault? {
          return RaiseBefore;
        }
        pool := true;
      }
      fault := world.Call();
    }

    /** The claiming UPDATE: an oldest waiting task starts running, whichever one on ties; no task
        comes back only if none waits. */
    method GetPendingTask(agent: AgentId, taskType: Option<string>) returns (fault: Fault, task: Option<TaskId>)
      modifies this, db, world
      ensures old(world.calls) <= world.calls && (fault.NoFault? <==> world.Calm(old(world.calls), world.calls))
      ensures db.invs == old(db.invs) && db.signals == old(db.signals)
      ensures fault.RaiseBefore? ==> task.None? && db.tasks == old(db.tasks)
      ensures !fault.RaiseBefore? && task.None? ==> NoneWaits(old(db.tasks), agent, taskType) && db.tasks == old(db.tasks)
      ensures task.Some? ==> Oldest(old(db.tasks), task.value, agent, taskType)
      ensures task.Some? ==> db.tasks == old(db.tasks)[task.value := old(db.tasks)[task.value].(status := Running)]
    {
      task := None;
      fault := Await();
      if fault.RaiseBefore? {
        return;
      }
      task := FirstOldest(db.tasks, agent, taskType);
      var tie: int := *;
      if 0 <= tie && Oldest(db.tasks, tie, agent, taskType) {
        task := Some(tie);
      }
      if task.Some? {
        db.tasks := db.tasks[task.value := Claimed(db.tasks[task.value])];
      }
    }

    method CompleteTask(task: TaskId, finding: Option<string>) returns (fault: Fault)
      modifies this, db, world
      ensures old(world.calls) <= world.calls && (fault.NoFault? <==> world.Calm(old(world.calls), world.calls))
      ensures db.invs == old(db.invs) && db.signals == old(db.signals)
      ensures db.tasks == if fault.RaiseBefore? || task >= |old(db.tasks)| then old(db.tasks)
                          else old(db.tasks)[task := old(db.tasks)[task].(status := Complete, result := Finding(finding))]
    {
      fault := Await();
      if !fault.RaiseBefore? && task < |db.tasks| {
        db.tasks := db.tasks[task := Completed(db.tasks[task], finding)];
      }
    }

    method FailTask(task: TaskId, error: string) returns (fault: Fault)
      modifies this, db, world
      ensures old(world.calls) <= world.calls && (fault.NoFault? <==> world.Calm(old(world.calls), world.calls))
      ensures db.invs == old(db.invs) && db.signals == old(db.signals)
      ensures db.tasks == if fault.RaiseBefore? || task >= |old(db.tasks)| then old(db.tasks)
                          else old(db.tasks)[task := old(db.tasks)[task].(status := Failed, result := TaskError(error))]
    {
      fault := Await();
      if !fault.RaiseBefore? && task < |db.tasks| {
        db.tasks := db.tasks[task := FailedWith(db.tasks[task], error)];
      }
    }

    /** The investigations in progress or in consensus, oldest first, each once. */
    method GetActiveInvestigations() returns (fault: Fault, ids: seq<InvId>)
      modifies this, world
      ensures old(world.calls) <= world.calls && (fault.NoFault? <==> world.Calm(old(world.calls), world.calls))
      ensures fault.NoFault? ==> IsActiveList(db.invs, ids)
      ensures fault.NoFault? ==>
        forall i: nat :: i in ids <==> i < |db.invs| && db.invs[i].status in {InProgress, Consensus}
    {
      ids := *;
      fault := Await();
      if fault.NoFault? && !IsActiveList(db.invs, ids) {
        ids := ActiveIds(db.invs);
      }
      if fault.NoFault? { ActiveListMeans(db.invs, ids); }
    }

    // rows is what the query returns, as far as the findings are concerned: anything
    method GetInvestigationFindings(rows: seq<string>) returns (fault: Fault, findings: seq<string>)
      modifies this, world
      ensures old(world.calls) <= world.calls && (fault.NoFault? <==> world.Calm(old(world.calls), world.calls))
      ensures findings == if fault.NoFault? then rows else []
    {
      findings := [];
      fault := Await();
      if !fault.NoFault? {
        return;
      }
      for i := 0 to |rows|
        invariant findings == rows[..i]
      {
        findings := findings + [rows[i]];
      }
    }

    // The question only goes into the prompt
    method GetInvestigationQuestion() returns (fault: Fault)
      modifies this, world
      ensures old(world.calls) <= world.calls && (fault.NoFault? <==> world.Calm(old(world.calls), world.calls))
    {
      fault := Await();
    }

    method CountPendingTasks(inv: InvId) returns (fault: Fault, count: nat)
      modifies this, world
      ensures old(world.calls) <= world.calls && (fault.NoFault? <==> world.Calm(old(world.calls), world.calls))
      ensures fault.NoFault? ==> count == Unfinished(db.tasks, inv)
      ensures fault.NoFault? ==> (count == 0 <==> Finished(db.tasks, inv))
      ensures fault.NoFault? && count == 0 ==>
        forall t :: 0 <= t < |db.tasks| && db.tasks[t].inv == inv ==> db.tasks[t].status in {Complete, Failed}
    {
      fault := Await();
      count := Unfinished(db.tasks, inv);
      UnfinishedZero(db.tasks, inv);
    }

    method SetInvestigationReport(inv: InvId, report: string) returns (fault: Fault)
      modifies this, db, world
      ensures old(world.calls) <= world.calls && (fault.NoFault? <==> world.Calm(old(world.calls), world.calls))
      ensures db.tasks == old(db.tasks) && db.signals == old(db.signals)
      ensures db.invs == if fault.RaiseBefore? || inv >= |old(db.invs)| then old(db.invs)
                         else old(db.invs)[inv := old(db.invs)[inv].(report := Some(report))]
    {
      fault := Await();
      if !fault.RaiseBefore? && inv < |db.invs| {
        db.invs := db.invs[inv := db.invs[inv].(report := Some(report))];
      }
    }

    method SetInvestigationStatus(inv: InvId, status: InvStatus) returns (fault: Fault)
      modifies this, db, world
      ensures old(world.calls) <= world.calls && (fault.NoFault? <==> world.Calm(old(world.calls), world.calls))
      ensures db.tasks == old(db.tasks) && db.signals == old(db.signals)
      ensures db.invs == if fault.RaiseBefore? || inv >= |old(db.invs)| then old(db.invs)
                         else old(db.invs)[inv := old(db.invs)[inv].(status := status)]
    {
      fault := Await();
      if !fault.RaiseBefore? && inv < |db.invs| {
        db.invs := db.invs[inv := db.invs[inv].(status := status)];
      }
    }
  }

  lemma ActiveListMeans(invs: seq<Investigation>, ids: seq<InvId>)
    requires IsActiveList(invs, ids)
    ensures forall i: nat :: i in ids <==> i < |invs| && invs[i].status in {InProgress, Consensus}
  {
    forall i: nat | i in ids ensures i < |invs| && invs[i].Active() {
      var j :| 0 <= j < |ids| && ids[j] == i;
    }
  }

  function ActiveIds(invs: seq<Investigation>): (ids: seq<InvId>)
    ensures IsActiveList(invs, ids)
  {
    var key := (i: nat) => if i < |invs| then invs[i].createdAt else 0;
    var kept := (i: nat) => i < |invs| && invs[i].Active();
    ListedIsOrdered(key, kept, |invs|);
    var ids := Listed(key, kept, |invs|);
    assert forall j :: 0 <= j < |ids| ==> ids[j] in ids;
    assert forall j, k :: 0 <= j < k < |ids| ==> key(ids[j]) <= key(ids[k]);
    ids
  }

  /* ---------- signals ---------- */

  function TicketOf(signals: seq<Signal>, i: SignalId): Ticket
    requires i < |signals|
  {
    Ticket(i, signals[i].kind, signals[i].agent)
  }

  predicate IsUnprocessed(signals: seq<Signal>, rows: seq<SignalId>) {
    && (forall j :: 0 <= j < |rows| ==> rows[j] < |signals| && !signals[rows[j]].processed)
    && (forall j, k :: 0 <= j < k < |rows| ==>
          rows[j] != rows[k] && signals[rows[j]].createdAt <= signals[rows[k]].createdAt)
    && (forall i :: 0 <= i < |signals| && !signals[i].processed ==> i in rows)
  }

  function UnprocessedIds(signals: seq<Signal>): (rows: seq<SignalId>)
    ensures IsUnprocessed(signals, rows)
  {
    var key := (i: nat) => if i < |signals| then signals[i].createdAt else 0;
    var kept := (i: nat) => i < |signals| && !signals[i].processed;
    ListedIsOrdered(key, kept, |signals|);
    var rows := Listed(key, kept, |signals|);
    assert forall j :: 0 <= j < |rows| ==> rows[j] in rows;
    assert forall j, k :: 0 <= j < k < |rows| ==> key(rows[j]) <= key(rows[k]);
    rows
  }

  class SignalPoller {
    const db: Shared
    const world: World
    var pool: bool

    constructor (db: Shared, world: World)
      ensures this.db == db && this.world == world
    {
      this.db, this.world, pool := db, world, false;
    }

    method Await() returns (fault: Fault)
      modifies this, world
      ensures old(world.calls) <= world.calls && (fault.NoFault? <==> world.Calm(old(world.calls), world.calls))
    {
      if !pool {
        fault := world.Call();
        if !fault.NoFault? {
          return RaiseBefore;
        }
        pool := true;
      }
      fault := world.Call();
    }

    /** Every unprocessed signal, once, oldest first. */
    method Poll() returns (fault: Fault, batch: seq<Ticket>)
      modifies this, world
      ensures old(world.calls) <= world.calls && (fault.NoFault? <==> world.Calm(old(world.calls), world.calls))
      ensures fault.NoFault? ==> IsPoll(db.signals, batch)
    {
      batch := [];
      fault := Await();
      var rows: seq<SignalId> := *;
      if !IsUnprocessed(db.signals, rows) {
        rows := UnprocessedIds(db.signals);
      }
      for j := 0 to |rows|
        invariant |batch| == j
        invariant forall k :: 0 <= k < j ==> batch[k] == TicketOf(db.signals, rows[k])
      {
        batch := batch + [TicketOf(db.signals, rows[j])];
      }
      forall i | 0 <= i < |db.signals| && !db.signals[i].processed ensures Polled(batch, i) {
        var j :| 0 <= j < |rows| && rows[j] == i;
        assert batch[j].id == i;
      }
    }

    method MarkProcessed(id: SignalId) returns (fault: Fault)
      modifies this, db, world
      ensures old(world.calls) <= world.calls && (fault.NoFault? <==> world.Calm(old(world.calls), world.calls))
      ensures db.invs == old(db.invs) && db.tasks == old(db.tasks)
      ensures db.signals == if fault.RaiseBefore? || id >= |old(db.signals)| then old(db.signals)
                            else old(db.signals)[id := old(db.signals)[id].(processed := true)]
    {
      fault := Await();
      if !fault.RaiseBefore? && id < |db.signals| {
        db.signals := db.signals[id := db.signals[id].(processed := true)];
      }
    }
  }
}
