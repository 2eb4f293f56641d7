/** The protocol's guarantees are not vacuous: an orderly run that crashes, completes and is reopened. */
module ProtocolWitness {
  import opened Options
  import opened Tables
  import opened Protocol
  import opened ProtocolTheorems
  import opened OrderlyRuns
  import opened ProtocolLiveness

  const GO := Step(0, NoFault, NOTHING)

  const TASK := Task(0, 1, "research", 0, Pending, NoResult)
  const DONE_TASK := Completed(TASK, Some("f"))
  const INV := Investigation(InProgress, None, 0)
  const TICK := Signal("force_tick", Some(1), 5, false)
  const TICKS := [Ticket(0, "force_tick", Some(1))]

  // Findings come back for investigation 0
  const CITED: Cited := {0}

  lemma Continue(es: seq<Event>, e: Event) returns (longer: seq<Event>)
    requires Orderly(INIT, es, CITED) && OrderlyEvent(Run(INIT, es), e, CITED)
    ensures longer == es + [e] && Orderly(INIT, longer, CITED)
    ensures Run(INIT, longer) == Apply(Run(INIT, es), e)
  {
    longer := Extend(es, e);
    assert longer[..|longer| - 1] == es;
  }

  lemma WitnessCreated() returns (es: seq<Event>)
    ensures Orderly(INIT, es, CITED)
    ensures Run(INIT, es) == State([INV], [TASK], [], [Idle], [], [], {})
  {
    es := Continue([], Boot);
    assert Run(INIT, es) == State([], [], [], [Idle], [], [], {});
    es := Continue(es, Create([(1, "research")], 0));
    assert NewTasks(0, [(1, "research")], 0) == [TASK];
  }

  lemma WitnessSent() returns (es: seq<Event>)
    ensures Orderly(INIT, es, CITED)
    ensures Run(INIT, es) == State([INV], [TASK], [TICK], [Idle], [], [], {})
  {
    es := WitnessCreated();
    es := Continue(es, Send("force_tick", Some(1), 5));
  }

  lemma WitnessPolled() returns (es: seq<Event>)
    ensures Orderly(INIT, es, CITED)
    ensures Run(INIT, es) == State([INV], [TASK], [TICK], [Busy(TICKS, 0, Dispatch)], [], [], {})
  {
    es := WitnessSent();
    assert IsPoll([TICK], TICKS) by {
      assert TICKS[0].id == 0;
      assert Polled(TICKS, 0);
    }
    es := Continue(es, Step(0, NoFault, NOTHING.(batch := TICKS)));
  }

  lemma WitnessClaimed() returns (es: seq<Event>)
    ensures Orderly(INIT, es, CITED)
    ensures Run(INIT, es) ==
      State([INV], [Tables.Claimed(TASK)], [TICK], [Busy(TICKS, 0, Building(1, 0, 0))], [], [], {})
  {
    es := WitnessPolled();
    es := Continue(es, GO);
    assert Run(INIT, es).procs == [Busy(TICKS, 0, Claiming(1, 0))];
    assert MayClaim([TASK], 1, 0, Some(0));
    es := Continue(es, Step(0, NoFault, NOTHING.(pick := Some(0))));
  }

  lemma WitnessRun() returns (es: seq<Event>)
    ensures Orderly(INIT, es, CITED)
    ensures Run(INIT, es) ==
      State([INV], [Tables.Claimed(TASK)], [TICK], [Busy(TICKS, 0, Completing(1, 0, 0, Some("f")))], [], [0], {})
  {
    es := WitnessClaimed();
    es := Continue(es, GO);
    es := Continue(es, Step(0, NoFault, NOTHING.(outcome := Found(Some("f")))));
  }

  lemma WitnessEnded() returns (es: seq<Event>)
    ensures Orderly(INIT, es, CITED)
    ensures Run(INIT, es) == State([INV], [DONE_TASK], [TICK], [Busy(TICKS, 0, Claiming(1, 1))], [], [0], {})
  {
    es := WitnessRun();
    es := Continue(es, GO);
  }

  // The orchestrator has completed the only task and crashes; a TriggerConsensus request reads the status
  lemma WitnessRead() returns (es: seq<Event>)
    ensures Orderly(INIT, es, CITED) && Crash(0) in es && ReadForConsensus(0) in es
    ensures Run(INIT, es) == State([INV], [DONE_TASK], [TICK], [Idle], [0], [0], {})
  {
    es := WitnessEnded();
    es := Continue(es, Crash(0));
    es := Continue(es, ReadForConsensus(0));
  }

  lemma Prolong(es: seq<Event>, rest: seq<Event>, s: State, s': State) returns (longer: seq<Event>)
    requires Orderly(INIT, es, CITED) && Run(INIT, es) == s && Leads(s, rest, s', CITED)
    ensures longer == es + rest && Orderly(INIT, longer, CITED) && Run(INIT, longer) == s'
  {
    longer := es + rest;
    RunAppend(INIT, es, rest);
    ThroughoutBoth(INIT, es, s, rest, (at, e) => OrderlyEvent(at, e, CITED));
  }

  lemma WitnessDone() returns (es: seq<Event>)
    ensures Orderly(INIT, es, CITED) && Crash(0) in es && ReadForConsensus(0) in es
    ensures Run(INIT, es).requests == [0] && Run(INIT, es).invs == [Investigation(Done, Some(""), 0)]
  {
    var read := WitnessRead();
    var s := State([INV], [DONE_TASK], [TICK], [Idle], [0], [0], {});
    var s' := Conclude(s, 0, CITED);
    var rest :| Leads(s, rest, s', CITED);
    es := Prolong(read, rest, s, s');
  }

  /** Complete is reachable by an orderly run, even through a crash; and a TriggerConsensus request
      that read the status before it puts the investigation back to consensus, its report still
      set. */
  lemma CompleteIsReachable() returns (es: seq<Event>, more: seq<Event>)
    ensures Orderly(INIT, es, CITED) && Crash(0) in es && ReadForConsensus(0) in es
    ensures 0 in Run(INIT, es).requests
    ensures Run(INIT, es).invs == [Investigation(Done, Some(""), 0)]
    ensures Run(INIT, es + more).invs == [Investigation(Consensus, Some(""), 0)]
  {
    es := WitnessDone();
    more := [WriteConsensus(0)];
    RunOneMore(INIT, es, WriteConsensus(0));
  }
}
