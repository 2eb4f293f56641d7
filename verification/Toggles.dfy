/** ToggleEndorsement and TogglePropagation (internal/store/pg/interactions.go) as concurrent
    READ COMMITTED transactions on one (agent_id, message_id) key.

    The row exists as a list of versions, each with the transaction that created it and the last
    one that deleted it. A DELETE first takes a statement snapshot and only later locks the
    version it saw; an INSERT consults the primary key. A statement that would have to wait for
    another transaction is not enabled, and an event that is not enabled leaves the state alone. */
module Toggles {
  import opened Options

  datatype Version = Version(creator: nat, deleter: Option<nat>)

  datatype Phase =
    | Began
    | Scanning(seen: Option<nat>)   // DELETE holds its snapshot; the version it will lock, if any
    | Deleted(row: nat)             // one row affected
    | Missed                        // no row affected: INSERT comes next
    | Inserted(row: nat)
    | Committed(result: bool)
    | Aborted                       // deferred Rollback, error or lost connection
  {
    predicate InProgress() {
      !Committed? && !Aborted?
    }

    // Holds an uncommitted change of the key
    predicate Writes() {
      Deleted? || Inserted?
    }
  }

  /** log is history: what the committed calls return, in commit order. */
  datatype State = State(versions: seq<Version>, txs: seq<Phase>, log: seq<bool>)

  const INIT := State([], [], [])

  datatype Event =
    | Begin
    | Snapshot(t: nat, seen: Option<nat>)
    | Delete(t: nat)
    | Insert(t: nat)
    | Commit(t: nat)
    | Abort(t: nat)

  predicate IsIn(s: State, t: nat) {
    t < |s.txs|
  }

  // The version is visible to a new snapshot
  predicate Live(s: State, v: nat) {
    && v < |s.versions|
    && s.versions[v].creator < |s.txs| && s.txs[s.versions[v].creator].Committed?
    && !(s.versions[v].deleter.Some? &&
         s.versions[v].deleter.value < |s.txs| && s.txs[s.versions[v].deleter.value].Committed?)
  }

  ghost predicate Present(s: State) {
    exists v: nat :: Live(s, v)
  }

  predicate Locked(s: State, v: nat) {
    v < |s.versions| && s.versions[v].deleter.Some? &&
    s.versions[v].deleter.value < |s.txs| && s.txs[s.versions[v].deleter.value].InProgress()
  }

  // The primary key cannot decide yet: a version's creation or deletion is uncommitted
  predicate InDoubt(s: State, v: nat) {
    v < |s.versions| && s.versions[v].creator < |s.txs| &&
    (s.txs[s.versions[v].creator].InProgress() || (s.txs[s.versions[v].creator].Committed? && Locked(s, v)))
  }

  function SetPhase(s: State, t: nat, phase: Phase): State
    requires t < |s.txs|
  {
    s.(txs := s.txs[t := phase])
  }

  // A DELETE that has found its version: locked, gone meanwhile, or free to delete
  ghost function DeleteSeen(s: State, t: nat, v: nat): State
    requires t < |s.txs|
  {
    if v >= |s.versions| || Locked(s, v) then s
    else if !Live(s, v) then SetPhase(s, t, Missed)
    else SetPhase(s, t, Deleted(v)).(versions := s.versions[v := s.versions[v].(deleter := Some(t))])
  }

  ghost function Apply(s: State, e: Event): State {
    match e
    case Begin => s.(txs := s.txs + [Began])
    case Snapshot(t, seen) =>
      if IsIn(s, t) && s.txs[t].Began? && (if seen.Some? then Live(s, seen.value) else !Present(s))
      then SetPhase(s, t, Scanning(seen)) else s
    case Delete(t) =>
      if !IsIn(s, t) || !s.txs[t].Scanning? then s
      else if s.txs[t].seen.None? then SetPhase(s, t, Missed)
      else DeleteSeen(s, t, s.txs[t].seen.value)
    case Insert(t) =>
      if !IsIn(s, t) || !s.txs[t].Missed? || (exists v: nat :: InDoubt(s, v)) then s
      else if Present(s) then SetPhase(s, t, Aborted)           // unique violation
      else SetPhase(s, t, Inserted(|s.versions|)).(versions := s.versions + [Version(t, None)])
    case Commit(t) =>
      if IsIn(s, t) && s.txs[t].Writes()
      then SetPhase(s, t, Committed(s.txs[t].Inserted?)).(log := s.log + [s.txs[t].Inserted?]) else s
    case Abort(t) => if IsIn(s, t) && s.txs[t].InProgress() then SetPhase(s, t, Aborted) else s
  }

  ghost function Run(es: seq<Event>): State {
    if es == [] then INIT else Apply(Run(es[..|es| - 1]), es[|es| - 1])
  }

  /* ---------- the invariant ---------- */

  ghost predicate VersionOk(s: State, v: nat)
    requires v < |s.versions|
  {
    var ver := s.versions[v];
    && ver.creator < |s.txs|
    && (s.txs[ver.creator] == Inserted(v) || !s.txs[ver.creator].InProgress())
    && (ver.deleter.Some? ==>
          ver.deleter.value < |s.txs| &&
          (s.txs[ver.deleter.value] == Deleted(v) || !s.txs[ver.deleter.value].InProgress()))
  }

  ghost predicate TxOk(s: State, t: nat)
    requires t < |s.txs|
  {
    match s.txs[t]
    case Deleted(v) => Live(s, v) && s.versions[v].deleter == Some(t)
    case Inserted(v) => v < |s.versions| && s.versions[v] == Version(t, None)
    case _ => true
  }

  ghost predicate OneWriter(s: State) {
    && (forall v: nat, w: nat :: Live(s, v) && Live(s, w) ==> v == w)
    && (forall t: nat, u: nat :: IsIn(s, t) && IsIn(s, u) && s.txs[t].Writes() && s.txs[u].Writes() ==> t == u)
    && (forall t: nat, v: nat :: IsIn(s, t) && s.txs[t].Inserted? ==> !Live(s, v))
  }

  ghost predicate Inv(s: State) {
    && (forall v :: 0 <= v < |s.versions| ==> VersionOk(s, v))
    && (forall t :: 0 <= t < |s.txs| ==> TxOk(s, t))
    && OneWriter(s)
    && (Present(s) <==> |s.log| % 2 == 1)
    && (forall k :: 0 <= k < |s.log| ==> s.log[k] == (k % 2 == 0))
  }

  // Moving one transaction between phases that are neither writing nor final changes nothing else
  lemma QuietMove(s: State, t: nat, phase: Phase)
    requires Inv(s) && t < |s.txs| && s.txs[t].InProgress() && !s.txs[t].Writes()
    requires phase.Scanning? || phase.Missed? || phase.Aborted?
    ensures Inv(SetPhase(s, t, phase))
  {
    var s' := SetPhase(s, t, phase);
    forall v | 0 <= v < |s.versions| ensures VersionOk(s', v) { assert VersionOk(s, v); }
    forall v: nat ensures Live(s', v) <==> Live(s, v) {
      if v < |s.versions| { assert VersionOk(s, v); }
    }
    forall u | 0 <= u < |s.txs| ensures TxOk(s', u) { assert TxOk(s, u); }
  }

  lemma BeginKeepsInv(s: State)
    requires Inv(s)
    ensures Inv(Apply(s, Begin))
  {
    var s' := Apply(s, Begin);
    forall v | 0 <= v < |s'.versions| ensures VersionOk(s', v) { assert VersionOk(s, v); }
    assert forall v: nat :: Live(s', v) <==> Live(s, v);
    forall t | 0 <= t < |s'.txs| ensures TxOk(s', t) { if t < |s.txs| { assert TxOk(s, t); } }
  }

  lemma DeleteKeepsInv(s: State, t: nat, v: nat)
    requires Inv(s) && t < |s.txs| && s.txs[t].Scanning? && v < |s.versions|
    ensures Inv(DeleteSeen(s, t, v))
  {
    var s' := DeleteSeen(s, t, v);
    if !Locked(s, v) {
      if !Live(s, v) {
        QuietMove(s, t, Missed);
      } else {
        forall w | 0 <= w < |s.versions| ensures VersionOk(s', w) { assert VersionOk(s, w); }
        forall w: nat ensures Live(s', w) <==> Live(s, w) {
          if w < |s.versions| { assert VersionOk(s, w); }
        }
        // a writer would hold the lock on the only live version, or rule live versions out
        forall u | 0 <= u < |s.txs| ensures !s.txs[u].Writes() { assert TxOk(s, u); }
        assert Present(s) <==> Present(s');
      }
    }
  }

  lemma InsertKeepsInv(s: State, t: nat)
    requires Inv(s) && t < |s.txs|
    ensures Inv(Apply(s, Insert(t)))
  {
    if s.txs[t].Missed? && !(exists v: nat :: InDoubt(s, v)) {
      if Present(s) {
        QuietMove(s, t, Aborted);
      } else {
        var s' := Apply(s, Insert(t));
        forall w | 0 <= w < |s'.versions| ensures VersionOk(s', w) {
          if w < |s.versions| { assert VersionOk(s, w); }
        }
        forall w: nat ensures !Live(s', w) {
          if w < |s.versions| { assert VersionOk(s, w); assert !Live(s, w); }
        }
        // an uncommitted insert would leave its version in doubt; a delete needs a live version
        forall u | 0 <= u < |s.txs| ensures !s.txs[u].Writes() {
          assert TxOk(s, u);
          assert s.txs[u].Inserted? ==> InDoubt(s, s.txs[u].row);
        }
      }
    }
  }

  lemma CommitKeepsInv(s: State, t: nat)
    requires Inv(s) && t < |s.txs| && s.txs[t].Writes()
    ensures Inv(Apply(s, Commit(t)))
    ensures Present(Apply(s, Commit(t))) != Present(s)
  {
    var s' := Apply(s, Commit(t));
    assert TxOk(s, t);
    var row := s.txs[t].row;
    forall w | 0 <= w < |s'.versions| ensures VersionOk(s', w) { assert VersionOk(s, w); }
    forall w: nat ensures Live(s', w) <==> (if s.txs[t].Inserted? then w == row else false) {
      if w < |s.versions| {
        assert VersionOk(s, w);
        if Live(s, w) && s.txs[t].Deleted? { assert w == row; }
      }
    }
    if s.txs[t].Inserted? { assert Live(s', row); } else { assert Live(s, row); }
    forall u | 0 <= u < |s'.txs| ensures TxOk(s', u) && !s'.txs[u].Writes() { assert TxOk(s, u); }
  }

  lemma AbortKeepsInv(s: State, t: nat)
    requires Inv(s) && t < |s.txs| && s.txs[t].InProgress()
    ensures Inv(SetPhase(s, t, Aborted))
  {
    var s' := SetPhase(s, t, Aborted);
    forall w | 0 <= w < |s'.versions| ensures VersionOk(s', w) { assert VersionOk(s, w); }
    forall w: nat ensures Live(s', w) <==> Live(s, w) {
      if w < |s.versions| { assert VersionOk(s, w); }
    }
    forall u | 0 <= u < |s'.txs| ensures TxOk(s', u) { assert TxOk(s, u); }
  }

  lemma EventKeepsInv(s: State, e: Event)
    requires Inv(s)
    ensures Inv(Apply(s, e))
  {
    match e
    case Begin => BeginKeepsInv(s);
    case Snapshot(t, seen) => if IsIn(s, t) && s.txs[t].Began? { QuietMove(s, t, Scanning(seen)); }
    case Delete(t) =>
      if IsIn(s, t) && s.txs[t].Scanning? {
        if s.txs[t].seen.None? { QuietMove(s, t, Missed); }
        else if s.txs[t].seen.value < |s.versions| { DeleteKeepsInv(s, t, s.txs[t].seen.value); }
      }
    case Insert(t) => if IsIn(s, t) { InsertKeepsInv(s, t); }
    case Commit(t) => if IsIn(s, t) && s.txs[t].Writes() { CommitKeepsInv(s, t); }
    case Abort(t) => if IsIn(s, t) && s.txs[t].InProgress() { AbortKeepsInv(s, t); }
  }

  lemma {:induction false} Reachable(es: seq<Event>)
    ensures Inv(Run(es))
  {
    if es == [] {
      assert forall v: nat :: !Live(INIT, v);
    } else {
      Reachable(es[..|es| - 1]);
      EventKeepsInv(Run(es[..|es| - 1]), es[|es| - 1]);
    }
  }

  /* ---------- the guarantees ---------- */

  /** Toggles linearize at commit. However the statements of any number of toggles of one key
      interleave, the committed row is present exactly after an odd number of committed toggles,
      and the k-th committed call returns the presence its commit leaves behind. */
  lemma TogglesLinearize(es: seq<Event>)
    ensures Present(Run(es)) <==> |Run(es).log| % 2 == 1
    ensures forall k :: 0 <= k < |Run(es).log| ==> Run(es).log[k] == ((k + 1) % 2 == 1)
    ensures forall v: nat, w: nat :: Live(Run(es), v) && Live(Run(es), w) ==> v == w
  {
    Reachable(es);
  }

  /** Each commit flips what a new snapshot sees, and returns it; no other event changes it. */
  lemma OnlyCommitsChangePresence(es: seq<Event>, e: Event)
    ensures var s, s' := Run(es), Run(es + [e]);
      if |s'.log| == |s.log| then Present(s') == Present(s)
      else |s'.log| == |s.log| + 1 && Present(s') == !Present(s) == s'.log[|s.log|]
  {
    assert (es + [e])[..|es + [e]| - 1] == es;
    Reachable(es);
    Reachable(es + [e]);
  }

  // Its next statement is held up by a row lock or by the primary key
  ghost predicate Waits(s: State, t: nat)
    requires t < |s.txs|
  {
    || (s.txs[t].Scanning? && s.txs[t].seen.Some? && Locked(s, s.txs[t].seen.value))
    || (s.txs[t].Missed? && exists v: nat :: InDoubt(s, v))
  }

  /** Nobody waits for a waiter. A DELETE or INSERT that must wait waits for a transaction that
      has finished its statements and can commit. */
  lemma WaitsOnlyForWriters(es: seq<Event>, t: nat) returns (u: nat)
    requires t < |Run(es).txs| && Waits(Run(es), t)
    ensures var s := Run(es); u < |s.txs| && u != t && s.txs[u].Writes()
  {
    Reachable(es);
    var s := Run(es);
    if s.txs[t].Scanning? {
      assert VersionOk(s, s.txs[t].seen.value);
      u := s.versions[s.txs[t].seen.value].deleter.value;
    } else {
      var v: nat :| InDoubt(s, v);
      assert VersionOk(s, v);
      u := if s.txs[s.versions[v].creator].InProgress() then s.versions[v].creator
           else s.versions[v].deleter.value;
    }
  }

  ghost predicate NoWriter(s: State) {
    forall t :: 0 <= t < |s.txs| ==> !s.txs[t].Writes()
  }

  // Begin, and the snapshot of the DELETE
  lemma AloneScans(s: State, seen: Option<nat>) returns (s': State)
    requires Inv(s) && (if seen.Some? then Live(s, seen.value) else !Present(s))
    ensures s' == Apply(Apply(s, Begin), Snapshot(|s.txs|, seen)) && Inv(s')
    ensures s' == s.(txs := s.txs + [Scanning(seen)])
    ensures forall v: nat :: Live(s', v) <==> Live(s, v)
  {
    EventKeepsInv(s, Begin);
    EventKeepsInv(Apply(s, Begin), Snapshot(|s.txs|, seen));
    s' := Apply(Apply(s, Begin), Snapshot(|s.txs|, seen));
    forall v: nat ensures Live(Apply(s, Begin), v) <==> Live(s, v) {
      if v < |s.versions| { assert VersionOk(s, v); }
    }
    forall v: nat ensures Live(s', v) <==> Live(s, v) {
      if v < |s.versions| { assert VersionOk(s, v); }
    }
  }

  lemma AloneDeletes(s: State, v: nat)
    requires Inv(s) && NoWriter(s) && Live(s, v)
    ensures var t := |s.txs|;
      var s' := Apply(Apply(Apply(Apply(s, Begin), Snapshot(t, Some(v))), Delete(t)), Commit(t));
      s'.log == s.log + [false] && !Present(s')
  {
    var t := |s.txs|;
    var mid := AloneScans(s, Some(v));
    assert VersionOk(s, v);
    var deleted := Apply(mid, Delete(t));
    assert deleted.txs[t] == Deleted(v);
    EventKeepsInv(mid, Delete(t));
    EventKeepsInv(deleted, Commit(t));
  }

  lemma AloneInserts(s: State)
    requires Inv(s) && NoWriter(s) && !Present(s)
    ensures var t := |s.txs|;
      var s' := Apply(Apply(Apply(Apply(Apply(s, Begin), Snapshot(t, None)), Delete(t)), Insert(t)), Commit(t));
      s'.log == s.log + [true] && Present(s')
  {
    var t := |s.txs|;
    var mid := AloneScans(s, None);
    var missed := Apply(mid, Delete(t));
    EventKeepsInv(mid, Delete(t));
    assert missed == s.(txs := s.txs + [Missed]);
    forall v: nat ensures !InDoubt(missed, v) && !Live(missed, v) {
      if v < |s.versions| {
        assert VersionOk(s, v) && VersionOk(missed, v);
        assert !Live(s, v);
      }
    }
    var inserted := Apply(missed, Insert(t));
    EventKeepsInv(missed, Insert(t));
    EventKeepsInv(inserted, Commit(t));
  }

  lemma Extend(es: seq<Event>, e: Event) returns (longer: seq<Event>)
    ensures longer == es + [e] && Run(longer) == Apply(Run(es), e)
  {
    longer := es + [e];
    assert longer[..|longer| - 1] == es;
  }

  /** A call that overlaps no other writer runs to its commit, flips the row and says so. */
  lemma AloneItSucceeds(es: seq<Event>) returns (longer: seq<Event>)
    requires NoWriter(Run(es))
    ensures es <= longer
    ensures Run(longer).log == Run(es).log + [!Present(Run(es))]
    ensures Present(Run(longer)) == !Present(Run(es))
  {
    Reachable(es);
    var s, t := Run(es), |Run(es).txs|;
    longer := Extend(es, Begin);
    if v: nat :| Live(s, v) {
      AloneDeletes(s, v);
      longer := Extend(longer, Snapshot(t, Some(v)));
      longer := Extend(longer, Delete(t));
    } else {
      AloneInserts(s);
      longer := Extend(longer, Snapshot(t, None));
      longer := Extend(longer, Delete(t));
      longer := Extend(longer, Insert(t));
    }
    longer := Extend(longer, Commit(t));
  }
}
