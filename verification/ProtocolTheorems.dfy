/** The guarantees of the investigation protocol, over every run. */
module ProtocolTheorems {
  import opened Sequences
  import opened Tables
  import opened Protocol
  import opened ProtocolSafety

  lemma {:induction false} RunAppend(s: State, es: seq<Event>, more: seq<Event>)
    ensures Run(s, es + more) == Run(Run(s, es), more)
  {
    if more == [] {
      assert es + more == es;
    } else {
      var n := |more| - 1;
      RunAppend(s, es, more[..n]);
      assert (es + more)[..|es + more| - 1] == es + more[..n];
    }
  }

  lemma RunOneMore(s: State, es: seq<Event>, e: Event)
    ensures Run(s, es + [e]) == Apply(Run(s, es), e)
  {
    assert (es + [e])[..|es|] == es;
  }

  lemma RunSplit(s: State, es: seq<Event>, e: Event, rest: seq<Event>)
    ensures Run(s, es + [e] + rest) == Run(Apply(Run(s, es), e), rest)
  {
    RunOneMore(s, es, e);
    RunAppend(s, es + [e], rest);
  }

  lemma Extend(es: seq<Event>, e: Event) returns (longer: seq<Event>)
    ensures longer == es + [e]
    ensures Run(INIT, longer) == Apply(Run(INIT, es), e)
  {
    longer := es + [e];
    RunOneMore(INIT, es, e);
  }

  /** At-most-once execution. agent.run starts at most once per task, and only on a task that
      left pending, whatever the orchestrators, signals, exceptions and crashes do. */
  lemma AtMostOnce(es: seq<Event>)
    ensures var s := Run(INIT, es);
      && Distinct(s.starts)
      && forall t :: t in s.starts ==> t < |s.tasks| && !s.tasks[t].status.Pending?
  {
    Reachable(es);
  }

  /** Complete is justified. An investigation read as complete has a task, all its tasks are
      complete or failed, and its report is set. */
  lemma CompleteIsJustified(es: seq<Event>, i: InvId)
    requires var s := Run(INIT, es); i < |s.invs| && s.invs[i].status.Done?
    ensures var s := Run(INIT, es); HasTask(s.tasks, i) && Finished(s.tasks, i) && s.invs[i].report.Some?
  {
    Reachable(es);
  }

  lemma CompleteStays(s: State, e: Event, i: InvId)
    requires i < |s.invs| && s.invs[i].status.Done? && i !in s.requests
    ensures i < |Apply(s, e).invs| && Apply(s, e).invs[i].status.Done? && i !in Apply(s, e).requests
  {
    match e
    case Step(p, _, c) =>
      if p < |s.procs| {
        EffectKeepsDone(s, s.procs[p], c, i);
      }
    case _ =>
  }

  lemma EffectKeepsDone(s: State, pc: Pc, c: Choice, i: InvId)
    requires i < |s.invs| && s.invs[i].status.Done?
    ensures i < |Effect(s, pc, c).invs| && Effect(s, pc, c).invs[i].status.Done?
    ensures Effect(s, pc, c).requests == s.requests
  {
  }

  lemma {:induction false} CompleteIsFinal(s: State, more: seq<Event>, i: InvId)
    requires i < |s.invs| && s.invs[i].status.Done? && i !in s.requests
    ensures i < |Run(s, more).invs| && Run(s, more).invs[i].status.Done? && i !in Run(s, more).requests
  {
    if more != [] {
      var n := |more| - 1;
      CompleteIsFinal(s, more[..n], i);
      CompleteStays(Run(s, more[..n]), more[n], i);
    }
  }

  /** Complete is final exactly when no TriggerConsensus request that read the investigation
      earlier is still to write. */
  lemma CompleteIsFinalIff(es: seq<Event>, i: InvId)
    requires i < |Run(INIT, es).invs| && Run(INIT, es).invs[i].status.Done?
    ensures i !in Run(INIT, es).requests <==>
      forall more :: i < |Run(INIT, es + more).invs| && Run(INIT, es + more).invs[i].status.Done?
  {
    var s := Run(INIT, es);
    if i !in s.requests {
      forall more ensures i < |Run(INIT, es + more).invs| && Run(INIT, es + more).invs[i].status.Done? {
        RunAppend(INIT, es, more);
        CompleteIsFinal(s, more, i);
      }
    } else {
      var r :| 0 <= r < |s.requests| && s.requests[r] == i;
      var longer := Extend(es, WriteConsensus(r));
      assert Run(INIT, es + [WriteConsensus(r)]).invs[i].status.Consensus?;
    }
  }

  /** Count-then-act. A count of zero read for an existing investigation stays zero. */
  lemma CountStaysZero(es: seq<Event>, more: seq<Event>, i: InvId)
    requires i < |Run(INIT, es).invs| && Unfinished(Run(INIT, es).tasks, i) == 0
    ensures Unfinished(Run(INIT, es + more).tasks, i) == 0
  {
    var s, s' := Run(INIT, es), Run(INIT, es + more);
    RunAppend(INIT, es, more);
    RunMonotone(s, more);
    UnfinishedZero(s.tasks, i);
    FinishedStays(s, s', i);
    UnfinishedZero(s'.tasks, i);
  }

  /* ---------- a task whose orchestrator is gone ---------- */

  ghost predicate Orphan(s: State, t: TaskId) {
    && t < |s.tasks| && s.tasks[t].status.Running?
    && forall p :: 0 <= p < |s.procs| && s.procs[p].Busy? && s.procs[p].job.HoldsTask() ==>
         s.procs[p].job.task != t
  }

  lemma MoverLeavesOrphan(s: State, pc: Pc, c: Choice, t: TaskId)
    requires t < |s.tasks| && s.tasks[t].status.Running?
    requires pc.Busy? && pc.job.HoldsTask() ==> pc.job.task != t
    ensures Effect(s, pc, c).tasks[t] == s.tasks[t]
    ensures forall pc' :: pc' in {Next(s, pc, c), Caught(pc, c)} && pc'.Busy? && pc'.job.HoldsTask() ==>
              pc'.job.task != t
  {
    EffectMonotone(s, pc, c);
  }

  lemma StepLeavesOrphan(s: State, p: nat, fault: Fault, c: Choice, t: TaskId)
    requires Orphan(s, t) && p < |s.procs|
    ensures Orphan(StepOf(s, p, fault, c), t)
  {
    MoverLeavesOrphan(s, s.procs[p], c, t);
  }

  lemma OrphanStays(s: State, e: Event, t: TaskId)
    requires Orphan(s, t)
    ensures Orphan(Apply(s, e), t)
  {
    if e.Step? {
      if e.p < |s.procs| { StepLeavesOrphan(s, e.p, e.fault, e.choice, t); }
    }
  }

  lemma {:induction false} OrphanRemains(s: State, more: seq<Event>, t: TaskId)
    requires Orphan(s, t)
    ensures Orphan(Run(s, more), t)
  {
    if more != [] {
      var n := |more| - 1;
      OrphanRemains(s, more[..n], t);
      OrphanStays(Run(s, more[..n]), more[n], t);
    }
  }

  /** A running task that no orchestrator holds (its orchestrator crashed, its claim's reply was
      lost, or its agent could not be built) runs for ever and keeps its investigation from
      ever being complete: nothing returns it to pending and nothing times it out. */
  lemma OrphanBlocksCompletion(es: seq<Event>, more: seq<Event>, t: TaskId)
    requires Orphan(Run(INIT, es), t)
    ensures Orphan(Run(INIT, es + more), t)
    ensures var s := Run(INIT, es + more);
            s.tasks[t].inv < |s.invs| && !s.invs[s.tasks[t].inv].status.Done?
  {
    RunAppend(INIT, es, more);
    OrphanRemains(Run(INIT, es), more, t);
    Reachable(es + more);
  }

  /* ---------- a task type no orchestrator serves ---------- */

  ghost predicate OnlyRegisteredRun(s: State) {
    forall t :: 0 <= t < |s.tasks| && s.tasks[t].taskType !in REGISTRY ==> s.tasks[t].status.Pending?
  }

  lemma EffectRunsRegistered(s: State, pc: Pc, c: Choice)
    requires PcOk(s, pc) && OnlyRegisteredRun(s)
    ensures OnlyRegisteredRun(Effect(s, pc, c))
  {
    var s' := Effect(s, pc, c);
    forall t | 0 <= t < |s'.tasks| && s'.tasks[t].taskType !in REGISTRY ensures s'.tasks[t].status.Pending? {
      if pc.Busy? && pc.job.Claiming? && pc.job.ty < |REGISTRY| { assert REGISTRY[pc.job.ty] in REGISTRY; }
    }
  }

  lemma EventRunsRegistered(s: State, e: Event)
    requires Inv(s) && OnlyRegisteredRun(s)
    ensures OnlyRegisteredRun(Apply(s, e))
  {
    if e.Step? && e.p < |s.procs| {
      assert PcOk(s, s.procs[e.p]);
      EffectRunsRegistered(s, s.procs[e.p], e.choice);
    }
  }

  /** A task whose type is not in the registry is never claimed, so its investigation is never
      complete, whatever happens. */
  lemma {:induction false} UnregisteredNeverRuns(es: seq<Event>)
    ensures OnlyRegisteredRun(Run(INIT, es))
    ensures
      var s := Run(INIT, es);
      forall t :: 0 <= t < |s.tasks| && s.tasks[t].taskType !in REGISTRY ==>
        s.tasks[t].inv < |s.invs| && !s.invs[s.tasks[t].inv].status.Done?
  {
    Reachable(es);
    if es != [] {
      var n := |es| - 1;
      Reachable(es[..n]);
      UnregisteredNeverRuns(es[..n]);
      EventRunsRegistered(Run(INIT, es[..n]), es[n]);
    }
  }

  /* ---------- signals ---------- */

  // The event is a mark_processed of signal i that took effect, raising afterwards or not
  ghost predicate Marks(s: State, e: Event, i: SignalId) {
    && e.Step? && e.p < |s.procs| && s.procs[e.p].Busy? && s.procs[e.p].job.Marking? && !e.fault.RaiseBefore?
    && s.procs[e.p].at < |s.procs[e.p].batch| && s.procs[e.p].batch[s.procs[e.p].at].id == i
  }

  lemma StepMarks(s: State, p: nat, fault: Fault, c: Choice)
    requires p < |s.procs|
    ensures StepOf(s, p, fault, c).signals ==
      if fault.RaiseBefore? then s.signals else Effect(s, s.procs[p], c).signals
  {
  }

  lemma OnlyMarksProcess(s: State, e: Event, i: SignalId)
    requires Inv(s) && i < |s.signals| && !s.signals[i].processed
    ensures i < |Apply(s, e).signals|
    ensures Apply(s, e).signals[i].processed <==> Marks(s, e, i)
    ensures Marks(s, e, i) ==> i in s.handled
  {
    EventMonotone(s, e);
    if e.Step? && e.p < |s.procs| {
      assert PcOk(s, s.procs[e.p]);
      StepMarks(s, e.p, e.fault, e.choice);
    }
  }

  /** A crash, and every exception other than a mark that took effect, leaves the signals as they were. */
  lemma FaultsLoseNoSignal(s: State, e: Event)
    requires e.Crash? || (e.Step? && !e.fault.NoFault? && forall i :: !Marks(s, e, i))
    ensures Apply(s, e).signals == s.signals
  {
    if e.Step? && e.p < |s.procs| && s.procs[e.p].Busy? {
      var pc := s.procs[e.p];
      var i := if pc.at < |pc.batch| then pc.batch[pc.at].id else 0;
      assert !Marks(s, e, i);
    }
  }

  // The signal is in the log, unprocessed, and so in whatever a poll returns
  ghost predicate Waits(s: State, i: SignalId, signal: Signal) {
    && i < |s.signals| && s.signals[i] == signal && !signal.processed
    && (forall batch :: IsPoll(s.signals, batch) ==> Polled(batch, i))
  }

  lemma KeepsWaiting(s: State, e: Event, i: SignalId)
    requires Inv(s) && i < |s.signals| && Waits(s, i, s.signals[i]) && !Marks(s, e, i)
    ensures Waits(Apply(s, e), i, s.signals[i])
  {
    OnlyMarksProcess(s, e, i);
    EventMonotone(s, e);
    assert SignalAdvances(s.signals[i], Apply(s, e).signals[i]);
  }

  // ... in each of the first k + 1 states of the run
  ghost predicate WaitsThrough(s: State, more: seq<Event>, k: nat, i: SignalId, signal: Signal) {
    k <= |more| && forall j :: 0 <= j <= k ==> Waits(Run(s, more[..j]), i, signal)
  }

  // ... and the next event marks it after its handler returned
  ghost predicate Delivers(s: State, more: seq<Event>, k: nat, i: SignalId) {
    k < |more| ==> Marks(Run(s, more[..k]), more[k], i) && i in Run(s, more[..k]).handled
  }

  lemma WaitsOn(s: State, more: seq<Event>, k: nat, i: SignalId, signal: Signal)
    requires more != [] && WaitsThrough(s, more[..|more| - 1], k, i, signal)
    ensures WaitsThrough(s, more, k, i, signal)
    ensures k < |more| - 1 && Delivers(s, more[..|more| - 1], k, i) ==> Delivers(s, more, k, i)
    ensures Run(s, more[..|more| - 1][..|more| - 1]) == Run(s, more[..|more| - 1])
  {
    assert more[..|more| - 1][..|more| - 1] == more[..|more| - 1];
    assert more[..|more| - 1][..k] == more[..k];
    forall j | 0 <= j <= k ensures Waits(Run(s, more[..j]), i, signal) {
      assert more[..|more| - 1][..j] == more[..j];
    }
  }

  lemma {:induction false} DeliveredLater(s: State, more: seq<Event>, i: SignalId, signal: Signal) returns (k: nat)
    requires Inv(s) && Waits(s, i, signal)
    ensures Inv(Run(s, more)) && WaitsThrough(s, more, k, i, signal)
    ensures Delivers(s, more, k, i)
  {
    if more == [] {
      k := 0;
    } else {
      var n := |more| - 1;
      k := DeliveredLater(s, more[..n], i, signal);
      WaitsOn(s, more, k, i, signal);
      EventKeepsInv(Run(s, more[..n]), more[n]);
      if k == n {
        k := NextDelivery(s, more, i, signal);
      }
    }
  }

  lemma NextDelivery(s: State, more: seq<Event>, i: SignalId, signal: Signal) returns (k: nat)
    requires more != [] && Inv(Run(s, more[..|more| - 1])) && WaitsThrough(s, more, |more| - 1, i, signal)
    ensures k >= |more| - 1 && WaitsThrough(s, more, k, i, signal)
    ensures Delivers(s, more, k, i)
  {
    var n := |more| - 1;
    var last := Run(s, more[..n]);
    k := n;
    OnlyMarksProcess(last, more[n], i);
    if !Marks(last, more[n], i) {
      k := n + 1;
      KeepsWaiting(last, more[n], i);
      assert more[..k] == more;
    }
  }

  /** Signal delivery. An unprocessed signal stays in the log, unprocessed and in every poll, until
      the event that marks it; that event is a mark_processed by an orchestrator whose handler
      returned normally from this very signal. k is the event's place, |more| if there is none. */
  lemma SignalDelivery(es: seq<Event>, more: seq<Event>, i: SignalId) returns (k: nat)
    requires i < |Run(INIT, es).signals| && !Run(INIT, es).signals[i].processed
    ensures WaitsThrough(Run(INIT, es), more, k, i, Run(INIT, es).signals[i])
    ensures k < |more| ==>
      var s := Run(INIT, es + more[..k]);
      Marks(s, more[k], i) && i in s.handled
    ensures i < |Run(INIT, es + more).signals|
    ensures k == |more| <==> !Run(INIT, es + more).signals[i].processed
  {
    Reachable(es);
    RunMonotone(Run(INIT, es), more);
    k := DeliveredLater(Run(INIT, es), more, i, Run(INIT, es).signals[i]);
    RunAppend(INIT, es, more);
    RunAppend(INIT, es, more[..k]);
    if k < |more| { ProcessedStays(Run(INIT, es), more, k, i); } else { assert more[..k] == more; }
  }

  lemma MarkedIs(s: State, e: Event, i: SignalId)
    requires i < |s.signals| && Marks(s, e, i)
    ensures i < |Apply(s, e).signals| && Apply(s, e).signals[i].processed
  {
  }

  lemma MarkedStays(s: State, rest: seq<Event>, i: SignalId)
    requires i < |s.signals| && s.signals[i].processed
    ensures i < |Run(s, rest).signals| && Run(s, rest).signals[i].processed
  {
    RunMonotone(s, rest);
    assert SignalAdvances(s.signals[i], Run(s, rest).signals[i]);
  }

  lemma MarkedThrough(s: State, e: Event, rest: seq<Event>, i: SignalId)
    requires i < |s.signals| && Marks(s, e, i)
    ensures i < |Run(Apply(s, e), rest).signals| && Run(Apply(s, e), rest).signals[i].processed
  {
    MarkedIs(s, e, i);
    MarkedStays(Apply(s, e), rest, i);
  }

  // A signal marked by event k is processed at the end
  lemma ProcessedStays(s: State, more: seq<Event>, k: nat, i: SignalId)
    requires k < |more| && i < |Run(s, more[..k]).signals| && Marks(Run(s, more[..k]), more[k], i)
    ensures i < |Run(s, more).signals| && Run(s, more).signals[i].processed
  {
    RunSplit(s, more[..k], more[k], more[k + 1..]);
    assert more == more[..k] + [more[k]] + more[k + 1..];
    MarkedThrough(Run(s, more[..k]), more[k], more[k + 1..], i);
  }

  ghost predicate Increasing(signals: seq<Signal>) {
    forall i, j :: 0 <= i < j < |signals| ==> signals[i].createdAt < signals[j].createdAt
  }

  ghost predicate ProcessedPrefix(signals: seq<Signal>, n: nat) {
    n <= |signals| && forall i :: 0 <= i < |signals| ==> (signals[i].processed <==> i < n)
  }

  // The lone orchestrator is at position n of the log
  ghost predicate InStep(s: State, n: nat) {
    && Increasing(s.signals) && ProcessedPrefix(s.signals, n)
    && |s.procs| <= 1
    && (|s.procs| == 1 && s.procs[0].Busy? ==>
          var pc := s.procs[0];
          pc.at <= |pc.batch| && |pc.batch| + n <= |s.signals| + pc.at &&
          forall j :: 0 <= j < |pc.batch| ==> pc.batch[j].id == n + j - pc.at)
  }

  // Sorted by created_at, without repeats, and covering exactly n..: the batch is the log's suffix
  lemma {:induction false} PollIsSuffix(signals: seq<Signal>, n: nat, batch: seq<Ticket>, j: nat)
    requires Increasing(signals) && ProcessedPrefix(signals, n) && IsPoll(signals, batch)
    requires j <= |batch|
    ensures n + j <= |signals|
    ensures forall k :: 0 <= k < j ==> batch[k].id == n + k
  {
    if j > 0 {
      PollIsSuffix(signals, n, batch, j - 1);
      var next, first := n + j - 1, batch[j - 1].id;
      var twin := if n <= first < next then first - n else j - 1;
      assert batch[twin].id == batch[j - 1].id;
      assert twin == j - 1;
      assert Polled(batch, next);
      var k :| 0 <= k < |batch| && batch[k].id == next;
      assert k >= j - 1;
      assert signals[first].createdAt <= signals[batch[k].id].createdAt;
    }
  }

  lemma SingleStep(s: State, e: Event, n: nat) returns (n': nat)
    requires Inv(s) && InStep(s, n) && |Apply(s, e).procs| <= 1 && Increasing(Apply(s, e).signals)
    ensures InStep(Apply(s, e), n')
  {
    n' := n;
    if e.Step? && e.p < |s.procs| {
      n' := SingleMove(s, e.fault, e.choice, n);
    }
  }

  lemma IdleMove(s: State, fault: Fault, c: Choice, n: nat)
    requires InStep(s, n) && |s.procs| == 1 && s.procs[0].Idle?
    ensures InStep(StepOf(s, 0, fault, c), n)
  {
    if IsPoll(s.signals, c.batch) { PollIsSuffix(s.signals, n, c.batch, |c.batch|); }
    assert StepOf(s, 0, fault, c).signals == s.signals;
  }

  // A step that marks nothing stays at its place in the batch, or drops the batch
  lemma BusyMove(s: State, fault: Fault, c: Choice, n: nat)
    requires InStep(s, n) && |s.procs| == 1 && s.procs[0].Busy?
    requires s.procs[0].job.Marking? ==> s.procs[0].at >= |s.procs[0].batch| || fault.RaiseBefore?
    requires PcOk(s, s.procs[0])
    ensures InStep(StepOf(s, 0, fault, c), n)
  {
    var pc, s' := s.procs[0], StepOf(s, 0, fault, c);
    assert s'.signals == s.signals;
    assert s'.procs[0].Idle? || (s'.procs[0].batch == pc.batch && s'.procs[0].at == pc.at);
  }

  lemma SingleMove(s: State, fault: Fault, c: Choice, n: nat) returns (n': nat)
    requires InStep(s, n) && |s.procs| == 1 && PcOk(s, s.procs[0])
    ensures InStep(StepOf(s, 0, fault, c), n')
  {
    var pc := s.procs[0];
    n' := n;
    if pc.Idle? {
      IdleMove(s, fault, c, n);
    } else if pc.job.Marking? && pc.at < |pc.batch| && !fault.RaiseBefore? {
      assert pc.batch[pc.at].id == n;
      n' := n + 1;
      assert StepOf(s, 0, fault, c).signals == s.signals[n := s.signals[n].(processed := true)];
    } else {
      BusyMove(s, fault, c, n);
    }
  }

  // Signals in order after an event, and no more than one orchestrator, were so before it
  lemma OrderedBefore(s: State, e: Event)
    requires Increasing(Apply(s, e).signals)
    ensures Increasing(s.signals) && |s.procs| <= |Apply(s, e).procs|
  {
    var s' := Apply(s, e);
    EventMonotone(s, e);
    forall i, j | 0 <= i < j < |s.signals| ensures s.signals[i].createdAt < s.signals[j].createdAt {
      assert SignalAdvances(s.signals[i], s'.signals[i]) && SignalAdvances(s.signals[j], s'.signals[j]);
    }
  }

  lemma {:induction false} LoneOrchestrator(es: seq<Event>) returns (n: nat)
    requires |Run(INIT, es).procs| <= 1 && Increasing(Run(INIT, es).signals)
    ensures InStep(Run(INIT, es), n)
  {
    if es == [] {
      n := 0;
    } else {
      var s := Run(INIT, es[..|es| - 1]);
      OrderedBefore(s, es[|es| - 1]);
      Reachable(es[..|es| - 1]);
      n := LoneOrchestrator(es[..|es| - 1]);
      n := SingleStep(s, es[|es| - 1], n);
    }
  }

  /** With one orchestrator, and signals that arrive in created_at order, the processed signals
      are a prefix of the log at every moment, across failed batches and restarts. */
  lemma ProcessedIsPrefix(es: seq<Event>)
    requires |Run(INIT, es).procs| <= 1 && Increasing(Run(INIT, es).signals)
    ensures exists n :: ProcessedPrefix(Run(INIT, es).signals, n)
  {
    var n := LoneOrchestrator(es);
  }

  /* ---------- progress ---------- */

  function Weight(t: Task): nat {
    if t.status.Pending? then 2 else if t.status.Running? then 1 else 0
  }

  // 2 * pending + running
  function Potential(tasks: seq<Task>): nat {
    if tasks == [] then 0 else Potential(tasks[..|tasks| - 1]) + Weight(tasks[|tasks| - 1])
  }

  lemma {:induction false} PotentialUpdate(tasks: seq<Task>, t: TaskId, row: Task)
    requires t < |tasks|
    ensures Potential(tasks[t := row]) == Potential(tasks) - Weight(tasks[t]) + Weight(row)
  {
    var n := |tasks| - 1;
    if t == n {
      assert tasks[t := row][..n] == tasks[..n];
    } else {
      PotentialUpdate(tasks[..n], t, row);
      assert tasks[t := row][..n] == tasks[..n][t := row];
    }
  }

  // The event claims a pending task, or ends a running one for the first time
  ghost predicate Productive(s: State, e: Event) {
    exists t :: 0 <= t < |s.tasks| && Weight(Apply(s, e).tasks[t]) < Weight(s.tasks[t])
  }

  lemma EventPotential(s: State, e: Event)
    requires !e.Create?
    ensures Potential(Apply(s, e).tasks) + (if Productive(s, e) then 1 else 0) <= Potential(s.tasks)
  {
    var s' := Apply(s, e);
    EventMonotone(s, e);
    if s'.tasks != s.tasks {
      var t := ChangedTask(s, e);
      PotentialUpdate(s.tasks, t, s'.tasks[t]);
      assert TaskAdvances(s.tasks[t], s'.tasks[t]);
      if Productive(s, e) {
        var u :| 0 <= u < |s.tasks| && Weight(s'.tasks[u]) < Weight(s.tasks[u]);
        assert u == t;
      }
    }
  }

  lemma ChangedTask(s: State, e: Event) returns (t: TaskId)
    requires !e.Create? && Apply(s, e).tasks != s.tasks
    ensures t < |s.tasks| && Apply(s, e).tasks == s.tasks[t := Apply(s, e).tasks[t]]
  {
    var job := s.procs[e.p].job;
    t := if job.Claiming? then e.choice.pick.value else job.task;
  }

  ghost function ProductiveEvents(s: State, es: seq<Event>): nat {
    if es == [] then 0
    else
      var n := |es| - 1;
      ProductiveEvents(s, es[..n]) + if Productive(Run(s, es[..n]), es[n]) then 1 else 0
  }

  /** Without new investigations, 2 * pending + running never grows and pays for every claim and
      every first finish: no run has more of them than the potential it started with. */
  lemma {:induction false} WorkIsBounded(s: State, es: seq<Event>)
    requires forall k :: 0 <= k < |es| ==> !es[k].Create?
    ensures Potential(Run(s, es).tasks) + ProductiveEvents(s, es) <= Potential(s.tasks)
  {
    if es != [] {
      var n := |es| - 1;
      WorkIsBounded(s, es[..n]);
      EventPotential(Run(s, es[..n]), es[n]);
    }
  }
}
