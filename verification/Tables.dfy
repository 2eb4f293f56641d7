/** Rows shared by the Go API and the Python runtime (migrations 002 and 003).
    Tasks, investigations and signals are never deleted, so a table is a sequence in insertion
    order and a row's UUID is modelled by its position: only identity matters for these ids. */
module Tables {
  import opened Options

  type AgentId = nat
  type TaskId = nat
  type InvId = nat
  type SignalId = nat

  // uuid.Nil, which gen_random_uuid never produces
  const NIL_AGENT: AgentId := 0

  datatype TaskStatus = Pending | Running | Complete | Failed {
    predicate Terminal() {
      Complete? || Failed?
    }
  }

  // The JSON a task's result column holds
  datatype TaskResult = NoResult | Finding(finding: Option<string>) | TaskError(error: string)

  datatype Task = Task(inv: InvId, agent: AgentId, taskType: string,
                       createdAt: int, status: TaskStatus, result: TaskResult)

  // 'pending' and 'failed' appear in a schema comment, but nothing writes them
  datatype InvStatus = InProgress | Consensus | Done

  datatype Investigation = Investigation(status: InvStatus, report: Option<string>, createdAt: int) {
    // status IN ('in_progress', 'consensus')
    predicate Active() {
      status.InProgress? || status.Consensus?
    }
  }

  datatype Signal = Signal(kind: string, agent: Option<AgentId>, createdAt: int, processed: bool)

  // AGENT_REGISTRY, in its iteration order
  const REGISTRY: seq<string> :=
    ["research", "news", "reddit", "github", "financial", "crypto", "osint", "fact_check"]

  /** SELECT COUNT(*) ... WHERE investigation_id = i AND status IN ('pending', 'running') */
  function Unfinished(tasks: seq<Task>, i: InvId): nat {
    if tasks == [] then 0
    else
      var t := tasks[|tasks| - 1];
      Unfinished(tasks[..|tasks| - 1], i) + if t.inv == i && !t.status.Terminal() then 1 else 0
  }

  ghost predicate Finished(tasks: seq<Task>, i: InvId) {
    forall t :: 0 <= t < |tasks| && tasks[t].inv == i ==> tasks[t].status.Terminal()
  }

  lemma {:induction false} UnfinishedZero(tasks: seq<Task>, i: InvId)
    ensures Unfinished(tasks, i) == 0 <==> Finished(tasks, i)
  {
    if tasks != [] {
      var n := |tasks| - 1;
      UnfinishedZero(tasks[..n], i);
      if Finished(tasks[..n], i) && (tasks[n].inv == i ==> tasks[n].status.Terminal()) {
        forall t | 0 <= t < |tasks| && tasks[t].inv == i ensures tasks[t].status.Terminal() {
          if t < n { assert tasks[..n][t] == tasks[t]; }
        }
      }
      if Finished(tasks, i) {
        forall t | 0 <= t < n && tasks[..n][t].inv == i ensures tasks[..n][t].status.Terminal() {
          assert tasks[..n][t] == tasks[t];
        }
      }
    }
  }

  // UPDATE investigation_tasks SET status = 'running'
  function Claimed(task: Task): Task {
    task.(status := Running)
  }

  // UPDATE investigation_tasks SET status = 'complete', result = ...
  function Completed(task: Task, finding: Option<string>): Task {
    task.(status := Complete, result := Finding(finding))
  }

  // UPDATE investigation_tasks SET status = 'failed', result = ...
  function FailedWith(task: Task, error: string): Task {
    task.(status := Failed, result := TaskError(error))
  }

  // The tables the API and the runtime share
  class Shared {
    var invs: seq<Investigation>
    var tasks: seq<Task>
    var signals: seq<Signal>

    constructor ()
      ensures invs == [] && tasks == [] && signals == []
    {
      invs, tasks, signals := [], [], [];
    }
  }
}
