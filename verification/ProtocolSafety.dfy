/** What holds in every reachable state of the investigation protocol. */
module ProtocolSafety {
  import opened Sequences
  import opened Tables
  import opened Protocol

  /* ---------- monotonicity: the order every event respects ---------- */

  ghost predicate TaskAdvances(a: Task, b: Task) {
    && b.inv == a.inv && b.agent == a.agent && b.taskType == a.taskType && b.createdAt == a.createdAt
    && (!a.status.Pending? ==> !b.status.Pending?)
    && (a.status.Terminal() ==> b.status.Terminal())
  }

  ghost predicate SignalAdvances(a: Signal, b: Signal) {
    b == a || b == a.(processed := true)
  }

  ghost predicate Monotone(s: State, s': State) {
    && |s.invs| <= |s'.invs| && |s.tasks| <= |s'.tasks| && |s.signals| <= |s'.signals|
    && (forall i :: 0 <= i < |s.invs| && s.invs[i].report.Some? ==> s'.invs[i].report.Some?)
    && (forall t :: 0 <= t < |s.tasks| ==> TaskAdvances(s.tasks[t], s'.tasks[t]))
    && (forall t :: |s.tasks| <= t < |s'.tasks| ==> |s.invs| <= s'.tasks[t].inv)
    && (forall i :: 0 <= i < |s.signals| ==> SignalAdvances(s.signals[i], s'.signals[i]))
    && s.handled <= s'.handled
  }

  lemma MonotoneTransitive(a: State, b: State, c: State)
    requires Monotone(a, b) && Monotone(b, c)
    ensures Monotone(a, c)
  {
    forall t | |a.tasks| <= t < |c.tasks| ensures |a.invs| <= c.tasks[t].inv {
      if t < |b.tasks| { assert TaskAdvances(b.tasks[t], c.tasks[t]); }
    }
    forall t | 0 <= t < |a.tasks| ensures TaskAdvances(a.tasks[t], c.tasks[t]) {
      assert TaskAdvances(a.tasks[t], b.tasks[t]) && TaskAdvances(b.tasks[t], c.tasks[t]);
    }
    forall i | 0 <= i < |a.signals| ensures SignalAdvances(a.signals[i], c.signals[i]) {
      assert SignalAdvances(a.signals[i], b.signals[i]) && SignalAdvances(b.signals[i], c.signals[i]);
    }
  }

  lemma EffectMonotone(s: State, pc: Pc, c: Choice)
    ensures Monotone(s, Effect(s, pc, c))
  {
  }

  /** Every event moves every table forward: no task re-enters pending or leaves a terminal
      status, no report is erased, and new tasks belong to new investigations. */
  lemma EventMonotone(s: State, e: Event)
    ensures Monotone(s, Apply(s, e))
  {
    match e
    case Step(p, fault, c) =>
      if p < |s.procs| { EffectMonotone(s, s.procs[p], c); }
    case _ =>
  }

  lemma {:induction false} RunMonotone(s: State, es: seq<Event>)
    ensures Monotone(s, Run(s, es))
  {
    if es != [] {
      var n := |es| - 1;
      RunMonotone(s, es[..n]);
      EventMonotone(Run(s, es[..n]), es[n]);
      MonotoneTransitive(s, Run(s, es[..n]), Run(s, es));
    }
  }

  /* ---------- the invariant ---------- */

  ghost predicate HasTask(tasks: seq<Task>, i: InvId) {
    exists t :: 0 <= t < |tasks| && tasks[t].inv == i
  }

  ghost predicate Existing(s: State, ids: seq<InvId>) {
    forall j :: 0 <= j < |ids| ==> ids[j] < |s.invs|
  }

  ghost predicate JobOk(s: State, job: Job) {
    && (job.HoldsTask() ==> job.task < |s.tasks| && !s.tasks[job.task].status.Pending?)
    && (job.Building? ==> job.task !in s.starts)
    && (job.Counting? ==> Existing(s, job.todo))
    && (job.Concluding() ==> job.todo != [] && Existing(s, job.todo) && Finished(s.tasks, job.todo[0]))
    && (job.Finishing? ==> s.invs[job.todo[0]].report.Some?)
  }

  ghost predicate PcOk(s: State, pc: Pc) {
    pc.Busy? ==>
      && JobOk(s, pc.job)
      && (forall j :: 0 <= j < |pc.batch| ==> pc.batch[j].id < |s.signals|)
      && (!pc.job.Dispatch? ==> pc.at < |pc.batch|)
      && (pc.job.Marking? ==> pc.batch[pc.at].id in s.handled)
  }

  // Between its claim and the start of agent.run
  ghost predicate Builds(pc: Pc) {
    pc.Busy? && pc.job.Building?
  }

  ghost predicate ClaimsDisjoint(procs: seq<Pc>) {
    forall p, q :: 0 <= p < q < |procs| && Builds(procs[p]) && Builds(procs[q]) ==>
                     procs[p].job.task != procs[q].job.task
  }

  ghost predicate TablesOk(s: State) {
    && (forall t :: 0 <= t < |s.tasks| ==> s.tasks[t].inv < |s.invs|)
    && (forall i :: 0 <= i < |s.invs| ==> HasTask(s.tasks, i))
    && (forall i :: 0 <= i < |s.invs| && s.invs[i].status.Done? ==>
          Finished(s.tasks, i) && s.invs[i].report.Some?)
    && (forall i :: 0 <= i < |s.signals| && s.signals[i].processed ==> i in s.handled)
    && (forall r :: 0 <= r < |s.requests| ==> s.requests[r] < |s.invs|)
  }

  ghost predicate StartsOk(s: State) {
    && Distinct(s.starts)
    && (forall t :: t in s.starts ==> t < |s.tasks| && !s.tasks[t].status.Pending?)
  }

  ghost predicate Inv(s: State) {
    && TablesOk(s) && StartsOk(s) && ClaimsDisjoint(s.procs)
    && (forall p :: 0 <= p < |s.procs| ==> PcOk(s, s.procs[p]))
  }

  /* ---------- preservation ---------- */

  lemma FinishedStays(s: State, s': State, i: InvId)
    requires Monotone(s, s') && i < |s.invs| && Finished(s.tasks, i)
    ensures Finished(s'.tasks, i)
  {
    forall t | 0 <= t < |s'.tasks| && s'.tasks[t].inv == i ensures s'.tasks[t].status.Terminal() {
      if t < |s.tasks| { assert TaskAdvances(s.tasks[t], s'.tasks[t]); }
    }
  }

  lemma HasTaskStays(s: State, s': State, i: InvId)
    requires Monotone(s, s') && HasTask(s.tasks, i)
    ensures HasTask(s'.tasks, i)
  {
    var t :| 0 <= t < |s.tasks| && s.tasks[t].inv == i;
    assert TaskAdvances(s.tasks[t], s'.tasks[t]);
  }

  // Another orchestrator's position stays good, unless its claimed task was started under it
  lemma PcStays(s: State, s': State, pc: Pc)
    requires PcOk(s, pc) && Monotone(s, s')
    requires Builds(pc) ==> pc.job.task !in s'.starts
    ensures PcOk(s', pc)
  {
    if pc.Busy? {
      if pc.job.HoldsTask() { assert TaskAdvances(s.tasks[pc.job.task], s'.tasks[pc.job.task]); }
      if pc.job.Concluding() { FinishedStays(s, s', pc.job.todo[0]); }
    }
  }

  lemma EffectKeepsTables(s: State, p: nat, c: Choice)
    requires Inv(s) && p < |s.procs|
    ensures TablesOk(Effect(s, s.procs[p], c))
  {
    var pc := s.procs[p];
    var s' := Effect(s, pc, c);
    EffectMonotone(s, pc, c);
    assert PcOk(s, pc);
    forall i | 0 <= i < |s.invs| ensures HasTask(s'.tasks, i) { HasTaskStays(s, s', i); }
    forall i | 0 <= i < |s'.invs| && s'.invs[i].status.Done?
      ensures Finished(s'.tasks, i) && s'.invs[i].report.Some?
    {
      assert Finished(s.tasks, i);
      FinishedStays(s, s', i);
    }
    forall t | 0 <= t < |s'.tasks| ensures s'.tasks[t].inv < |s'.invs| {
      assert TaskAdvances(s.tasks[t], s'.tasks[t]);
    }
  }

  lemma EffectKeepsStarts(s: State, p: nat, c: Choice)
    requires Inv(s) && p < |s.procs|
    ensures StartsOk(Effect(s, s.procs[p], c))
  {
    var pc := s.procs[p];
    var s' := Effect(s, pc, c);
    EffectMonotone(s, pc, c);
    assert PcOk(s, pc);
    forall t | t in s'.starts ensures t < |s'.tasks| && !s'.tasks[t].status.Pending? {
      assert TaskAdvances(s.tasks[t], s'.tasks[t]);
    }
  }

  // A claimed task was pending a moment ago, so no run was ever started on it
  lemma NextTaskJobOk(s: State, p: nat, c: Choice)
    requires Inv(s) && p < |s.procs| && s.procs[p].Busy?
    requires s.procs[p].job.Claiming? || s.procs[p].job.HoldsTask()
    ensures JobOk(Effect(s, s.procs[p], c), Next(s, s.procs[p], c).job)
  {
    var pc := s.procs[p];
    assert PcOk(s, pc);
    EffectMonotone(s, pc, c);
    if pc.job.HoldsTask() { assert TaskAdvances(s.tasks[pc.job.task], Effect(s, pc, c).tasks[pc.job.task]); }
  }

  // _run_consensus starts from a count of zero and writes the report before the status
  lemma NextConsensusJobOk(s: State, p: nat, c: Choice)
    requires Inv(s) && p < |s.procs| && s.procs[p].Busy?
    requires s.procs[p].job.Listing? || s.procs[p].job.Counting? || s.procs[p].job.Concluding()
    ensures JobOk(Effect(s, s.procs[p], c), Next(s, s.procs[p], c).job)
  {
    var pc := s.procs[p];
    assert PcOk(s, pc);
    EffectMonotone(s, pc, c);
    if pc.job.Counting? && pc.job.todo != [] { UnfinishedZero(s.tasks, pc.job.todo[0]); }
    if pc.job.Concluding() { FinishedStays(s, Effect(s, pc, c), pc.job.todo[0]); }
  }

  lemma NextOk(s: State, p: nat, c: Choice)
    requires Inv(s) && p < |s.procs|
    ensures PcOk(Move(Effect(s, s.procs[p], c), p, Next(s, s.procs[p], c)), Next(s, s.procs[p], c))
  {
    var pc := s.procs[p];
    assert PcOk(s, pc);
    if pc.Busy? {
      var mid, pc' := Effect(s, pc, c), Next(s, pc, c);
      EffectMonotone(s, pc, c);
      if pc.job.Claiming? || pc.job.HoldsTask() {
        NextTaskJobOk(s, p, c);
      } else if pc.job.Listing? || pc.job.Counting? || pc.job.Concluding() {
        NextConsensusJobOk(s, p, c);
      }
      if pc'.Busy? {
        assert JobOk(mid, pc'.job);
        assert pc'.batch == pc.batch;
        assert pc'.job.Dispatch? || (pc'.at == pc.at && pc.at < |pc.batch|);
        assert JobOk(Move(mid, p, pc'), pc'.job);
      }
    }
  }

  lemma CaughtOk(s: State, s0: State, p: nat, c: Choice)
    requires Inv(s0) && p < |s0.procs| && Monotone(s0, s) && s.procs == s0.procs
    ensures PcOk(Move(s, p, Caught(s.procs[p], c)), Caught(s.procs[p], c))
  {
    var pc := s.procs[p];
    assert PcOk(s0, pc);
    if pc.Busy? && pc.job.HoldsTask() { assert TaskAdvances(s0.tasks[pc.job.task], s.tasks[pc.job.task]); }
  }

  // A claim takes a pending task, which nobody else can be holding
  lemma NextKeepsDisjoint(s: State, p: nat, c: Choice)
    requires Inv(s) && p < |s.procs|
    ensures ClaimsDisjoint(s.procs[p := Next(s, s.procs[p], c)])
  {
    var procs := s.procs[p := Next(s, s.procs[p], c)];
    forall i, j | 0 <= i < j < |procs| && Builds(procs[i]) && Builds(procs[j])
      ensures procs[i].job.task != procs[j].job.task
    {
      assert PcOk(s, s.procs[i]) && PcOk(s, s.procs[j]);
    }
  }

  // Table changes by p are good for p's own next position and for everybody else's
  lemma MoveKeepsInv(s: State, mid: State, p: nat, pc': Pc)
    requires Inv(s) && Monotone(s, mid) && mid.procs == s.procs && p < |s.procs|
    requires TablesOk(mid) && StartsOk(mid)
    requires PcOk(Move(mid, p, pc'), pc') && ClaimsDisjoint(s.procs[p := pc'])
    requires forall q :: 0 <= q < |s.procs| && q != p && Builds(s.procs[q]) ==>
               s.procs[q].job.task !in mid.starts
    ensures Inv(Move(mid, p, pc'))
  {
    var s' := Move(mid, p, pc');
    forall q | 0 <= q < |s'.procs| ensures PcOk(s', s'.procs[q]) {
      if q != p {
        assert PcOk(s, s.procs[q]);
        PcStays(s, s', s.procs[q]);
      }
    }
  }

  lemma OthersNotStarted(s: State, p: nat, q: nat, c: Choice)
    requires Inv(s) && p < |s.procs| && q < |s.procs| && p != q
    requires Builds(s.procs[q])
    ensures s.procs[q].job.task !in Effect(s, s.procs[p], c).starts
  {
    assert PcOk(s, s.procs[q]);
  }

  lemma StepKeepsInv(s: State, p: nat, fault: Fault, c: Choice)
    requires Inv(s) && p < |s.procs|
    ensures Inv(StepOf(s, p, fault, c))
  {
    var pc := s.procs[p];
    var mid := Effect(s, pc, c);
    EffectMonotone(s, pc, c);
    EffectKeepsTables(s, p, c);
    EffectKeepsStarts(s, p, c);
    assert PcOk(s, pc);
    forall q | 0 <= q < |s.procs| && q != p && Builds(s.procs[q])
      ensures s.procs[q].job.task !in s.starts && s.procs[q].job.task !in mid.starts
    {
      assert PcOk(s, s.procs[q]);
      OthersNotStarted(s, p, q, c);
    }
    match fault {
      case NoFault =>
        NextOk(s, p, c);
        NextKeepsDisjoint(s, p, c);
        MoveKeepsInv(s, mid, p, Next(s, pc, c));
      case RaiseBefore =>
        CaughtOk(s, s, p, c);
        MoveKeepsInv(s, s, p, Caught(pc, c));
      case RaiseAfter =>
        var after := if Builds(pc) then s else mid;
        CaughtOk(after, s, p, c);
        MoveKeepsInv(s, after, p, Caught(pc, c));
    }
  }

  lemma CreateKeepsInv(s: State, jobs: seq<(AgentId, string)>, now: int)
    requires Inv(s) && jobs != []
    ensures Inv(Apply(s, Create(jobs, now)))
  {
    var s' := Apply(s, Create(jobs, now));
    EventMonotone(s, Create(jobs, now));
    assert s'.tasks[|s.tasks|].inv == |s.invs|;
    forall i | 0 <= i < |s'.invs| ensures HasTask(s'.tasks, i) {
      if i < |s.invs| { HasTaskStays(s, s', i); }
    }
    forall i | 0 <= i < |s'.invs| && s'.invs[i].status.Done?
      ensures Finished(s'.tasks, i) && s'.invs[i].report.Some?
    {
      FinishedStays(s, s', i);
    }
    forall q | 0 <= q < |s'.procs| ensures PcOk(s', s'.procs[q]) {
      PcStays(s, s', s.procs[q]);
    }
  }

  lemma EventKeepsInv(s: State, e: Event)
    requires Inv(s)
    ensures Inv(Apply(s, e))
  {
    if e.Step? {
      if e.p < |s.procs| { StepKeepsInv(s, e.p, e.fault, e.choice); }
    } else if e.Create? {
      if e.jobs != [] { CreateKeepsInv(s, e.jobs, e.now); }
    } else {
      var s' := Apply(s, e);
      EventMonotone(s, e);
      forall q | 0 <= q < |s'.procs| ensures PcOk(s', s'.procs[q]) {
        if s'.procs[q].Busy? { PcStays(s, s', s.procs[q]); }
      }
    }
  }

  lemma {:induction false} Reachable(es: seq<Event>)
    ensures Inv(Run(INIT, es))
  {
    if es != [] {
      Reachable(es[..|es| - 1]);
      EventKeepsInv(Run(INIT, es[..|es| - 1]), es[|es| - 1]);
    }
  }
}
