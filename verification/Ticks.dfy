/** What normally returning force_ticks do to an agent's pending tasks
    (runtime/orchestrator.py, _handle_agent_tick, when nothing disturbs it). */
module Ticks {
  import opened Options
  import opened Tables
  import opened Scheduling

  // A task was run to its end: its status is terminal, and only status and result changed
  ghost predicate Ended(a: Task, b: Task) {
    b.status.Terminal() && b == a.(status := b.status, result := b.result)
  }

  // Task t, and no other, was ended
  ghost predicate EndsAt(a: seq<Task>, b: seq<Task>, t: TaskId) {
    t < |a| && t < |b| && Ended(a[t], b[t]) && b == a[t := b[t]]
  }

  // Of the tasks waiting for this type, one oldest was ended, and only that
  ghost predicate TookOne(a: seq<Task>, b: seq<Task>, agent: AgentId, taskType: string, t: TaskId)
    requires |a| == |b|
  {
    && Oldest(a, t, agent, Some(taskType)) && Ended(a[t], b[t])
    && (forall u :: 0 <= u < |a| && u != t && a[u].taskType == taskType ==> b[u] == a[u])
  }

  ghost predicate Served(a: seq<Task>, b: seq<Task>, agent: AgentId, taskType: string)
    requires |a| == |b|
  {
    if NoneWaits(a, agent, Some(taskType))
    then forall u :: 0 <= u < |a| && a[u].taskType == taskType ==> b[u] == a[u]
    else exists t: TaskId :: TookOne(a, b, agent, taskType, t)
  }

  /** After the first n types of the registry: each was served, and tasks of other types are as
      they were. */
  ghost predicate Ticked(a: seq<Task>, b: seq<Task>, agent: AgentId, n: nat) {
    && n <= |REGISTRY| && |a| == |b|
    && (forall k :: 0 <= k < n ==> Served(a, b, agent, REGISTRY[k]))
    && (forall u :: 0 <= u < |a| && a[u].taskType !in REGISTRY[..n] ==> b[u] == a[u])
  }

  lemma RegistryDistinct(j: nat, k: nat)
    requires j < k < |REGISTRY|
    ensures REGISTRY[j] != REGISTRY[k]
  {
  }

  // Served depends only on the tasks of its type
  lemma ServedStays(a: seq<Task>, b: seq<Task>, c: seq<Task>, agent: AgentId, taskType: string)
    requires |a| == |b| == |c| && Served(a, b, agent, taskType)
    requires forall u :: 0 <= u < |a| && a[u].taskType == taskType ==> c[u] == b[u]
    ensures Served(a, c, agent, taskType)
  {
    if !NoneWaits(a, agent, Some(taskType)) {
      var t :| TookOne(a, b, agent, taskType, t);
      assert TookOne(a, c, agent, taskType, t);
    }
  }

  // A tick leaves a task alone or takes it from pending to its end
  lemma RowAdvances(a: seq<Task>, b: seq<Task>, agent: AgentId, n: nat, u: TaskId)
    requires Ticked(a, b, agent, n) && u < |a|
    ensures b[u] == a[u] || (Waiting(a[u], agent, Some(a[u].taskType)) && Ended(a[u], b[u]))
  {
    if a[u].taskType in REGISTRY[..n] {
      var k :| 0 <= k < n && REGISTRY[k] == a[u].taskType;
      assert Served(a, b, agent, REGISTRY[k]);
      if !NoneWaits(a, agent, Some(REGISTRY[k])) {
        var t :| TookOne(a, b, agent, REGISTRY[k], t);
      }
    }
  }

  lemma OneMoreType(a: seq<Task>, b: seq<Task>, c: seq<Task>, agent: AgentId, n: nat, task: Option<TaskId>)
    requires Ticked(a, b, agent, n) && n < |REGISTRY|
    requires task.None? ==> NoneWaits(b, agent, Some(REGISTRY[n])) && c == b
    requires task.Some? ==> Oldest(b, task.value, agent, Some(REGISTRY[n]))
    requires task.Some? ==> EndsAt(b[task.value := Claimed(b[task.value])], c, task.value)
    ensures Ticked(a, c, agent, n + 1)
  {
    var ty := REGISTRY[n];
    forall k | 0 <= k < n ensures REGISTRY[k] != ty { RegistryDistinct(k, n); }
    assert ty !in REGISTRY[..n];
    forall u | 0 <= u < |a| && a[u].taskType == ty ensures b[u] == a[u] { }
    forall u | 0 <= u < |a| && a[u].taskType != ty ensures c[u] == b[u] {
      RowAdvances(a, b, agent, n, u);
    }
    forall k | 0 <= k < n ensures Served(a, c, agent, REGISTRY[k]) {
      ServedStays(a, b, c, agent, REGISTRY[k]);
    }
    assert REGISTRY[..n + 1] == REGISTRY[..n] + [ty];
    if task.Some? {
      assert TookOne(a, c, agent, ty, task.value);
    }
    assert Served(a, c, agent, ty);
  }

  /* ---------- how many tasks wait ---------- */

  // The pending tasks of the agent and type
  function PendingCount(tasks: seq<Task>, agent: AgentId, taskType: string): nat {
    if tasks == [] then 0
    else
      var n := |tasks| - 1;
      PendingCount(tasks[..n], agent, taskType) + if Waiting(tasks[n], agent, Some(taskType)) then 1 else 0
  }

  // If exactly row t stopped waiting, one less waits (t outside means none did)
  lemma {:induction false} OneLess(a: seq<Task>, b: seq<Task>, agent: AgentId, taskType: string, t: TaskId)
    requires |a| == |b|
    requires forall u :: 0 <= u < |a| && u != t ==>
      (Waiting(b[u], agent, Some(taskType)) <==> Waiting(a[u], agent, Some(taskType)))
    requires t < |a| ==> Waiting(a[t], agent, Some(taskType)) && !Waiting(b[t], agent, Some(taskType))
    ensures PendingCount(a, agent, taskType) == PendingCount(b, agent, taskType) + if t < |a| then 1 else 0
  {
    if a != [] {
      var n := |a| - 1;
      OneLess(a[..n], b[..n], agent, taskType, t);
    }
  }

  lemma {:induction false} CountIsZero(tasks: seq<Task>, agent: AgentId, taskType: string)
    ensures PendingCount(tasks, agent, taskType) == 0 <==> NoneWaits(tasks, agent, Some(taskType))
  {
    if tasks != [] {
      var n := |tasks| - 1;
      CountIsZero(tasks[..n], agent, taskType);
      assert tasks == tasks[..n] + [tasks[n]];
    }
  }

  lemma ServedCounts(a: seq<Task>, b: seq<Task>, agent: AgentId, taskType: string)
    requires |a| == |b| && Served(a, b, agent, taskType)
    requires forall u :: 0 <= u < |a| ==> b[u].taskType == a[u].taskType
    ensures PendingCount(b, agent, taskType) ==
      var p := PendingCount(a, agent, taskType); if p == 0 then 0 else p - 1
  {
    CountIsZero(a, agent, taskType);
    if NoneWaits(a, agent, Some(taskType)) {
      OneLess(a, b, agent, taskType, |a|);
    } else {
      var t :| TookOne(a, b, agent, taskType, t);
      OneLess(a, b, agent, taskType, t);
    }
  }

  /* ---------- k ticks in a row ---------- */

  // ts[i + 1] is what a normally returning force_tick for the agent made of ts[i]
  ghost predicate Ticking(ts: seq<seq<Task>>, agent: AgentId) {
    ts != [] && forall i, j :: 0 <= i && j == i + 1 && j < |ts| ==> Ticked(ts[i], ts[j], agent, |REGISTRY|)
  }

  // Taken from pending to its end, when no task of its type that still waits is older
  ghost predicate Taken(a: seq<Task>, b: seq<Task>, agent: AgentId, t: TaskId)
    requires t < |a| == |b|
  {
    && Waiting(a[t], agent, Some(a[t].taskType)) && Ended(a[t], b[t])
    && (forall u :: 0 <= u < |b| && Waiting(b[u], agent, Some(a[t].taskType)) ==> a[t].createdAt <= b[u].createdAt)
  }

  ghost predicate TakenInOrder(a: seq<Task>, b: seq<Task>, agent: AgentId, t: TaskId)
    requires |a| == |b|
  {
    t < |a| ==> b[t] == a[t] || Taken(a, b, agent, t)
  }

  lemma TypesStay(a: seq<Task>, b: seq<Task>, agent: AgentId)
    requires Ticked(a, b, agent, |REGISTRY|)
    ensures forall u :: 0 <= u < |a| ==> b[u].taskType == a[u].taskType && b[u].createdAt == a[u].createdAt
    ensures forall u :: 0 <= u < |a| && b[u].status.Pending? ==> b[u] == a[u]
  {
    forall u | 0 <= u < |a|
      ensures b[u].taskType == a[u].taskType && b[u].createdAt == a[u].createdAt
      ensures b[u].status.Pending? ==> b[u] == a[u]
    {
      RowAdvances(a, b, agent, |REGISTRY|, u);
    }
  }

  // What a tick takes is no younger than any task of its type still waiting after it
  lemma TakenIsOldest(a: seq<Task>, b: seq<Task>, agent: AgentId, t: TaskId)
    requires Ticked(a, b, agent, |REGISTRY|) && t < |a| && b[t] != a[t]
    ensures Taken(a, b, agent, t)
  {
    RowAdvances(a, b, agent, |REGISTRY|, t);
    TypesStay(a, b, agent);
    assert a[t].taskType in REGISTRY[..|REGISTRY|];
    var k :| 0 <= k < |REGISTRY| && REGISTRY[k] == a[t].taskType;
    assert Served(a, b, agent, REGISTRY[k]);
    var x :| TookOne(a, b, agent, REGISTRY[k], x);
    assert x == t;
  }

  lemma {:induction false} RowsSince(ts: seq<seq<Task>>, agent: AgentId, t: TaskId)
    requires Ticking(ts, agent)
    ensures |ts[|ts| - 1]| == |ts[0]| && TakenInOrder(ts[0], ts[|ts| - 1], agent, t)
  {
    var n := |ts| - 1;
    if n > 0 {
      RowsSince(ts[..n], agent, t);
      assert Ticked(ts[n - 1], ts[n], agent, |REGISTRY|);
      TypesStay(ts[n - 1], ts[n], agent);
      if t < |ts[0]| && ts[n][t] != ts[n - 1][t] { TakenIsOldest(ts[n - 1], ts[n], agent, t); }
    }
  }

  lemma {:induction false} CountAfter(ts: seq<seq<Task>>, agent: AgentId, taskType: string)
    requires Ticking(ts, agent) && taskType in REGISTRY
    ensures PendingCount(ts[|ts| - 1], agent, taskType) ==
      var p := PendingCount(ts[0], agent, taskType); if p <= |ts| - 1 then 0 else p - (|ts| - 1)
  {
    var n := |ts| - 1;
    if n > 0 {
      CountAfter(ts[..n], agent, taskType);
      assert Ticked(ts[n - 1], ts[n], agent, |REGISTRY|);
      TypesStay(ts[n - 1], ts[n], agent);
      var k :| 0 <= k < |REGISTRY| && REGISTRY[k] == taskType;
      assert Served(ts[n - 1], ts[n], agent, REGISTRY[k]);
      ServedCounts(ts[n - 1], ts[n], agent, taskType);
    }
  }

  /** Progress. k force_ticks for an agent that return normally, nothing else changing the tasks,
      take the pending count of every registered type from p to max(0, p - k), oldest first, and
      leave every other task as it was: none they claimed is left running. */
  lemma TicksProgress(ts: seq<seq<Task>>, agent: AgentId)
    requires Ticking(ts, agent)
    ensures
      var k, a, b := |ts| - 1, ts[0], ts[|ts| - 1];
      && |a| == |b|
      && (forall ty :: ty in REGISTRY ==>
            var p := PendingCount(a, agent, ty);
            PendingCount(b, agent, ty) == if p <= k then 0 else p - k)
      && (forall t: TaskId :: TakenInOrder(a, b, agent, t))
      && (forall t :: 0 <= t < |a| && b[t].status.Running? ==> b[t] == a[t])
  {
    var a, b := ts[0], ts[|ts| - 1];
    RowsSince(ts, agent, 0);
    forall t: TaskId ensures TakenInOrder(a, b, agent, t) { RowsSince(ts, agent, t); }
    forall t | 0 <= t < |a| && b[t].status.Running? ensures b[t] == a[t] {
      assert TakenInOrder(a, b, agent, t);
    }
    forall ty | ty in REGISTRY
      ensures var p := PendingCount(ts[0], agent, ty);
        PendingCount(ts[|ts| - 1], agent, ty) == if p <= |ts| - 1 then 0 else p - (|ts| - 1)
    {
      CountAfter(ts, agent, ty);
    }
  }
}
