/** CreateInvestigation and TriggerConsensus, as single calls: internal/store/pg/investigations.go
    and internal/handler/investigations.go. */
module Investigations {
  import opened Options
  import opened Tables
  import opened Protocol
  import opened ProtocolSafety
  import opened ProtocolTheorems
  import opened OrderlyRuns
  import opened ProtocolLiveness

  /* ---------- who gets a task ---------- */

  const DEFAULT_TYPES: seq<string> :=
    ["research", "news", "github", "financial", "crypto", "osint", "fact_check", "consensus"]

  // A type's place in the switch; "reddit" and unknown types have none
  function Rank(taskType: string): Option<nat> {
    RankIn(DEFAULT_TYPES, taskType)
  }

  function RankIn(types: seq<string>, taskType: string): Option<nat> {
    if types == [] then None
    else if types[0] == taskType then Some(0)
    else
      var rest := RankIn(types[1..], taskType);
      if rest.None? then None else Some(rest.value + 1)
  }

  // min(rank, n - 1) for a ranked type, the last place otherwise
  function Place(taskType: string, n: nat): (i: nat)
    requires n > 0
    ensures i < n
  {
    var rank := Rank(taskType);
    if rank.Some? && rank.value < n then rank.value else n - 1
  }

  predicate Known(agentIds: seq<AgentId>) {
    NIL_AGENT !in agentIds
  }

  predicate AllKnown(active: seq<seq<AgentId>>) {
    forall k :: 0 <= k < |active| ==> Known(active[k])
  }

  // The agent one iteration assigns, given the active agents it read, oldest first
  function Assignee(taskType: string, agentIds: seq<AgentId>): AgentId {
    if agentIds == [] then NIL_AGENT else agentIds[Place(taskType, |agentIds|)]
  }

  /** The agent a type's task goes to: the r-th active one for the r-th of the eight names, if there
      are that many, and the last one in every other case. */
  ghost predicate IsRight(agentId: AgentId, taskType: string, agentIds: seq<AgentId>)
    requires agentIds != []
  {
    var names := ["research", "news", "github", "financial", "crypto", "osint", "fact_check", "consensus"];
    if exists r :: 0 <= r < |names| && names[r] == taskType && r < |agentIds|
    then forall r :: 0 <= r < |names| && names[r] == taskType ==> r < |agentIds| && agentId == agentIds[r]
    else agentId == agentIds[|agentIds| - 1]
  }

  lemma AssigneeIsRight(taskType: string, agentIds: seq<AgentId>)
    requires agentIds != []
    ensures IsRight(Assignee(taskType, agentIds), taskType, agentIds)
  {
    var names := DEFAULT_TYPES;
    assert names == ["research", "news", "github", "financial", "crypto", "osint", "fact_check", "consensus"];
    NamesDiffer();
    if r :| 0 <= r < |names| && names[r] == taskType {
      RankIs(names, taskType, r);
    } else {
      RankIs(names, taskType, |names|);
    }
  }

  lemma NamesDiffer()
    ensures forall i, j :: 0 <= i < j < |DEFAULT_TYPES| ==> DEFAULT_TYPES[i] != DEFAULT_TYPES[j]
  {
  }

  /** The switch of CreateInvestigation: the agent in the type's place, the last one when the list
      is too short or the type has no place, and no agent when the list is empty. */
  method Assign(taskType: string, agentIds: seq<AgentId>) returns (agentId: AgentId)
    requires Known(agentIds)
    ensures agentId == Assignee(taskType, agentIds)
    ensures agentId == NIL_AGENT <==> agentIds == []
    ensures agentIds != [] ==> IsRight(agentId, taskType, agentIds)
  {
    agentId := NIL_AGENT;
    if taskType == "research" {
      if |agentIds| > 0 { agentId := agentIds[0]; }
    } else if taskType == "news" {
      if |agentIds| > 1 { agentId := agentIds[1]; }
    } else if taskType == "github" {
      if |agentIds| > 2 { agentId := agentIds[2]; }
    } else if taskType == "financial" {
      if |agentIds| > 3 { agentId := agentIds[3]; }
    } else if taskType == "crypto" {
      if |agentIds| > 4 { agentId := agentIds[4]; }
    } else if taskType == "osint" {
      if |agentIds| > 5 { agentId := agentIds[5]; }
    } else if taskType == "fact_check" {
      if |agentIds| > 6 { agentId := agentIds[6]; }
    } else if taskType == "consensus" {
      if |agentIds| > 7 { agentId := agentIds[7]; }
    }
    Ranks(taskType);
    if agentIds != [] { AssigneeIsRight(taskType, agentIds); }
    if agentId == NIL_AGENT && |agentIds| > 0 {
      agentId := agentIds[|agentIds| - 1];
    }
  }

  lemma {:induction false} RankIs(types: seq<string>, taskType: string, r: nat)
    requires r <= |types| && (r < |types| ==> types[r] == taskType)
    requires forall j :: 0 <= j < r ==> types[j] != taskType
    ensures RankIn(types, taskType) == if r < |types| then Some(r) else None
  {
    if r > 0 { RankIs(types[1..], taskType, r - 1); }
  }

  lemma Ranks(taskType: string)
    ensures Rank(taskType) ==
      if taskType == "research" then Some(0) else if taskType == "news" then Some(1)
      else if taskType == "github" then Some(2) else if taskType == "financial" then Some(3)
      else if taskType == "crypto" then Some(4) else if taskType == "osint" then Some(5)
      else if taskType == "fact_check" then Some(6) else if taskType == "consensus" then Some(7)
      else None
  {
    var types := DEFAULT_TYPES;
    assert types[0] == "research" && types[1] == "news" && types[2] == "github" && types[3] == "financial";
    assert types[4] == "crypto" && types[5] == "osint" && types[6] == "fact_check" && types[7] == "consensus";
    var r :| 0 <= r <= 8 && (r < 8 ==> types[r] == taskType) && forall j :: 0 <= j < r ==> types[j] != taskType;
    RankIs(types, taskType, r);
  }

  /* ---------- the transaction ---------- */

  function TypesOf(taskTypes: seq<string>): seq<string> {
    if taskTypes == [] then DEFAULT_TYPES else taskTypes
  }

  // The lists of active agents the iterations read, oldest agent first; an empty one past the end
  type Rosters = seq<seq<AgentId>>

  function Roster(active: Rosters, k: nat): seq<AgentId> {
    if k < |active| then active[k] else []
  }

  // The agent and type of the task one iteration inserts
  predicate IsJob(job: (AgentId, string), taskType: string, agentIds: seq<AgentId>) {
    job == (Assignee(taskType, agentIds), taskType)
  }

  // jobs are those of the iterations, in order
  predicate AreJobs(jobs: seq<(AgentId, string)>, types: seq<string>, active: Rosters) {
    && |jobs| == |types|
    && (forall k {:trigger IsJob(jobs[k], types[k], Roster(active, k))} :: 0 <= k < |types| ==>
          IsJob(jobs[k], types[k], Roster(active, k)))
  }

  function Jobs(types: seq<string>, active: Rosters): (jobs: seq<(AgentId, string)>)
    ensures AreJobs(jobs, types, active)
  {
    JobsUpTo(types, active, |types|)
  }

  function JobsUpTo(types: seq<string>, active: Rosters, n: nat): (jobs: seq<(AgentId, string)>)
    requires n <= |types|
    ensures |jobs| == n && forall k :: 0 <= k < n ==> IsJob(jobs[k], types[k], Roster(active, k))
  {
    if n == 0 then []
    else JobsUpTo(types, active, n - 1) + [(Assignee(types[n - 1], Roster(active, n - 1)), types[n - 1])]
  }

  // Which statements the server fails; those of the loop by iteration
  datatype Failing = Failing(begin: bool, insert: bool, read: set<nat>, assign: set<nat>, commit: bool)

  predicate LoopFails(failing: Failing, k: nat) {
    k in failing.read || k in failing.assign
  }

  predicate Undisturbed(failing: Failing, n: nat) {
    forall k :: 0 <= k < n ==> !LoopFails(failing, k)
  }

  // Some agent is active in each of the first n iterations
  predicate Manned(active: Rosters, n: nat) {
    forall k :: 0 <= k < n ==> Roster(active, k) != []
  }

  predicate IsTaskFor(row: Task, id: InvId, job: (AgentId, string), now: int) {
    row == Task(id, job.0, job.1, now, Pending, NoResult)
  }

  // One pending task of investigation id per job, in order
  predicate AreTasksFor(rows: seq<Task>, id: InvId, jobs: seq<(AgentId, string)>, now: int) {
    |rows| == |jobs| && forall k :: 0 <= k < |jobs| ==> IsTaskFor(rows[k], id, jobs[k], now)
  }

  datatype Created = Created(id: InvId, row: Investigation, tasks: seq<Task>)

  // One round of the loop; None is an error
  method InsertTask(id: InvId, taskType: string, agentIds: seq<AgentId>, now: int, k: nat, failing: Failing)
    returns (task: Option<Task>)
    requires Known(agentIds)
    ensures task.Some? <==> agentIds != [] && !LoopFails(failing, k)
    ensures task.Some? ==> IsJob((task.value.agent, task.value.taskType), taskType, agentIds)
    ensures task.Some? ==> IsTaskFor(task.value, id, (task.value.agent, task.value.taskType), now)
  {
    if k in failing.read {
      return None;
    }
    var agentId := Assign(taskType, agentIds);
    // the foreign key of agent_id refuses uuid.Nil
    if k in failing.assign || agentId == NIL_AGENT {
      return None;
    }
    return Some(Task(id, agentId, taskType, now, Pending, NoResult));
  }

  lemma SameJob(job: (AgentId, string), other: (AgentId, string), taskType: string, agentIds: seq<AgentId>)
    requires IsJob(job, taskType, agentIds) && IsJob(other, taskType, agentIds)
    ensures job == other
  {
  }

  // The k-th row is a pending task of the k-th type, assigned from the list its own iteration read
  ghost predicate AreAssigned(rows: seq<Task>, id: InvId, types: seq<string>, active: Rosters, now: int) {
    && |rows| == |types| <= |active|
    && (forall k :: 0 <= k < |rows| ==>
          && rows[k].inv == id && rows[k].taskType == types[k] && rows[k].createdAt == now
          && rows[k].status == Pending && rows[k].result == NoResult
          && active[k] != [] && IsRight(rows[k].agent, types[k], active[k]))
  }

  lemma TasksAreAssigned(rows: seq<Task>, id: InvId, jobs: seq<(AgentId, string)>, types: seq<string>,
                         active: Rosters, now: int)
    requires AreTasksFor(rows, id, jobs, now) && AreJobs(jobs, types, active) && Manned(active, |types|)
    ensures AreAssigned(rows, id, types, active, now)
  {
    assert |types| > 0 ==> Roster(active, |types| - 1) != [];
    forall k | 0 <= k < |rows|
      ensures rows[k] == Task(id, rows[k].agent, types[k], now, Pending, NoResult)
      ensures k < |active| && active[k] != [] && IsRight(rows[k].agent, types[k], active[k])
    {
      assert IsTaskFor(rows[k], id, jobs[k], now) && IsJob(jobs[k], types[k], Roster(active, k));
      AssigneeIsRight(types[k], Roster(active, k));
    }
  }

  // The loop of CreateInvestigation, over rows no one else sees before the commit
  method InsertTasks(id: InvId, types: seq<string>, active: Rosters, now: int, failing: Failing,
                     ghost jobs: seq<(AgentId, string)>)
    returns (tasks: Option<seq<Task>>)
    requires AllKnown(active) && AreJobs(jobs, types, active)
    ensures tasks.Some? <==> Manned(active, |types|) && Undisturbed(failing, |types|)
    ensures tasks.Some? ==> AreTasksFor(tasks.value, id, jobs, now)
    ensures tasks.Some? ==> AreAssigned(tasks.value, id, types, active, now)
  {
    var rows: seq<Task> := [];
    for k := 0 to |types|
      invariant AreTasksFor(rows, id, jobs[..k], now)
      invariant Manned(active, k) && Undisturbed(failing, k)
    {
      var task := InsertTask(id, types[k], Roster(active, k), now, k, failing);
      if task.None? {
        return None;
      }
      SameJob(jobs[k], (task.value.agent, task.value.taskType), types[k], Roster(active, k));
      rows := rows + [task.value];
    }
    TasksAreAssigned(rows, id, jobs, types, active, now);
    return Some(rows);
  }

  /** CreateInvestigation is all or nothing. It succeeds exactly when no statement fails and some
      agent is active in every iteration; then there is one investigation and one pending task per
      requested type, in order, each assigned by its place in the list its iteration read, and
      all carry the transaction's time. Otherwise no table changes. */
  method CreateInvestigation(db: Shared, taskTypes: seq<string>, active: Rosters,
                             now: int, failing: Failing)
    returns (result: Option<Created>)
    requires AllKnown(active)
    modifies db
    ensures db.signals == old(db.signals)
    ensures result.Some? <==>
      !failing.begin && !failing.insert && !failing.commit &&
      Undisturbed(failing, |TypesOf(taskTypes)|) && Manned(active, |TypesOf(taskTypes)|)
    ensures result.None? ==> db.invs == old(db.invs) && db.tasks == old(db.tasks)
    ensures result.Some? ==>
      && AreTasksFor(result.value.tasks, |old(db.invs)|, Jobs(TypesOf(taskTypes), active), now)
      && AreAssigned(result.value.tasks, |old(db.invs)|,
           if taskTypes == []
           then ["research", "news", "github", "financial", "crypto", "osint", "fact_check", "consensus"]
           else taskTypes, active, now)
      && result.value.id == |old(db.invs)| && result.value.row == Investigation(InProgress, None, now)
      && db.invs == old(db.invs) + [result.value.row] && db.tasks == old(db.tasks) + result.value.tasks
  {
    if failing.begin || failing.insert {
      return None;
    }
    var row := Investigation(InProgress, None, now);
    var id := |db.invs|;

    var types := taskTypes;
    if |types| == 0 {
      types := DEFAULT_TYPES;
    }

    var tasks := InsertTasks(id, types, active, now, failing, Jobs(types, active));
    if tasks.None? {
      return None;
    }

    if failing.commit {
      return None;
    }
    db.invs := db.invs + [row];
    db.tasks := db.tasks + tasks.value;
    return Some(Created(id, row, tasks.value));
  }

  /** The rows a committed call adds are those of one Create event of the protocol. */
  lemma CommitIsCreate(s: State, rows: seq<Task>, taskTypes: seq<string>, active: Rosters, now: int)
    requires AreTasksFor(rows, |s.invs|, Jobs(TypesOf(taskTypes), active), now)
    ensures Apply(s, Create(Jobs(TypesOf(taskTypes), active), now)) ==
      s.(invs := s.invs + [Investigation(InProgress, None, now)], tasks := s.tasks + rows)
  {
    assert |TypesOf(taskTypes)| > 0;
    assert rows == NewTasks(|s.invs|, Jobs(TypesOf(taskTypes), active), now);
  }

  // The state after a committed call
  lemma Creating(es: seq<Event>, jobs: seq<(AgentId, string)>, now: int)
    requires jobs != []
    ensures
      var s, s' := Run(INIT, es), Run(INIT, es + [Create(jobs, now)]);
      && s'.invs == s.invs + [Investigation(InProgress, None, now)]
      && s'.tasks == s.tasks + NewTasks(|s.invs|, jobs, now)
  {
    var longer := Extend(es, Create(jobs, now));
  }

  /** An investigation can be completed after its creation exactly when every task's type is one
      an orchestrator serves and the findings query may return rows for it. */
  lemma CompletableIffServed(es: seq<Event>, jobs: seq<(AgentId, string)>, now: int, cited: Cited)
    requires jobs != [] && Answers(INIT, es, cited)
    ensures
      var created := es + [Create(jobs, now)];
      var i := |Run(INIT, es).invs|;
      (forall k :: 0 <= k < |jobs| ==> jobs[k].1 in REGISTRY) && i in cited <==>
      exists more :: Orderly(Run(INIT, created), more, cited) && Completes(created, more, i)
  {
    var created, i := es + [Create(jobs, now)], |Run(INIT, es).invs|;
    Creating(es, jobs, now);
    FinishableIffServed(es, jobs, now);
    CreateAnswers(Run(INIT, es), jobs, now, cited);
    AnswersBoth(es, [Create(jobs, now)], cited);
    CompletableIff(created, i, cited);
  }

  lemma CreateAnswers(s: State, jobs: seq<(AgentId, string)>, now: int, cited: Cited)
    ensures Answers(s, [Create(jobs, now)], cited)
  {
    assert [Create(jobs, now)][..0] == [];
  }

  lemma FinishableIffServed(es: seq<Event>, jobs: seq<(AgentId, string)>, now: int)
    requires jobs != []
    ensures CanFinish(Run(INIT, es + [Create(jobs, now)]), |Run(INIT, es).invs|) <==>
            forall k :: 0 <= k < |jobs| ==> jobs[k].1 in REGISTRY
  {
    Creating(es, jobs, now);
    Reachable(es);
    CreatedFinishable(Run(INIT, es), Run(INIT, es + [Create(jobs, now)]), jobs, now);
  }

  lemma CreatedFinishable(s: State, s': State, jobs: seq<(AgentId, string)>, now: int)
    requires TablesOk(s) && s'.tasks == s.tasks + NewTasks(|s.invs|, jobs, now)
    ensures CanFinish(s', |s.invs|) <==> forall k :: 0 <= k < |jobs| ==> jobs[k].1 in REGISTRY
  {
    PendingFinishable(s', |s.invs|, |s.tasks|, jobs);
  }

  lemma PendingFinishable(s: State, i: InvId, first: nat, jobs: seq<(AgentId, string)>)
    requires |s.tasks| == first + |jobs| && forall t :: 0 <= t < first ==> s.tasks[t].inv != i
    requires forall t :: first <= t < |s.tasks| ==>
      s.tasks[t].inv == i && s.tasks[t].status.Pending? && s.tasks[t].taskType == jobs[t - first].1
    ensures CanFinish(s, i) <==> forall k :: 0 <= k < |jobs| ==> jobs[k].1 in REGISTRY
  {
    if CanFinish(s, i) {
      forall k | 0 <= k < |jobs| ensures jobs[k].1 in REGISTRY {
        assert s.tasks[first + k].taskType == jobs[k].1 && Finishable(s, first + k);
      }
    }
  }

  /** The default list holds "consensus", which no orchestrator serves: an investigation created
      without task types is never complete, in any later state of any run. */
  lemma DefaultsNeverComplete(es: seq<Event>, active: Rosters, now: int, more: seq<Event>)
    ensures
      var i := |Run(INIT, es).invs|;
      var s := Run(INIT, es + [Create(Jobs(TypesOf([]), active), now)] + more);
      i < |s.invs| && !s.invs[i].status.Done?
  {
    var jobs := Jobs(TypesOf([]), active);
    var mid := es + [Create(jobs, now)];
    Creating(es, jobs, now);
    RunAppend(INIT, mid, more);
    RunMonotone(Run(INIT, mid), more);
    assert TypesOf([])[7] == "consensus" && jobs[7].1 == "consensus" && "consensus" !in REGISTRY;
    FinishableIffServed(es, jobs, now);
    var t :| 0 <= t < |Run(INIT, mid).tasks| && Run(INIT, mid).tasks[t].inv == |Run(INIT, es).invs| &&
             !Finishable(Run(INIT, mid), t);
    StuckStays(mid, more, |Run(INIT, es).invs|, t);
  }

  /* ---------- TriggerConsensus ---------- */

  datatype Reply = NotFound | AlreadyComplete | Failure | Updated(row: Investigation)

  /** TriggerConsensus moves an investigation that is not complete to consensus and keeps its
      report; one that is complete, unknown, or behind a failing server stays as it is. With other
      processes between its read and its write it is the two events of the protocol. */
  method TriggerConsensus(db: Shared, id: InvId, down: bool, refused: bool) returns (reply: Reply)
    modifies db
    ensures db.tasks == old(db.tasks) && db.signals == old(db.signals)
    ensures reply.NotFound? <==> down || id >= |old(db.invs)|
    ensures reply.AlreadyComplete? <==> !down && id < |old(db.invs)| && old(db.invs)[id].status.Done?
    ensures reply.Updated? ==> id < |old(db.invs)| && !refused
    ensures reply.Updated? ==> reply.row == old(db.invs)[id].(status := Consensus)
    ensures reply.Failure? ==> refused
    ensures db.invs == if reply.Updated? then old(db.invs)[id := reply.row] else old(db.invs)
  {
    if down || id >= |db.invs| {
      return NotFound;
    }
    var inv := db.invs[id];
    if inv.status == Done {
      return AlreadyComplete;
    }
    if refused {
      return Failure;
    }
    db.invs := db.invs[id := db.invs[id].(status := Consensus)];
    inv := inv.(status := Consensus);
    return Updated(inv);
  }
}
