/** Agent statistics, and what every run of posts, responses, toggles and edits conserves. */
module Conservation {
  import opened Options
  import opened Sequences
  import opened Joins
  import opened Cursors
  import opened Database

  /* ---------- GetAgentWithStats ---------- */

  type Row1 = (Agent, Option<nat>)
  type Row2 = (Row1, Option<nat>)
  type Row3 = (Row2, Option<nat>)
  type Row4 = (Row3, Option<nat>)
  type Row5 = (Row4, Option<nat>)

  function AuthorOf(m: Message): Uuid { m.agent }
  function GiverOf(x: Interaction): Uuid { x.0 }

  // m.id = e.message_id
  predicate IsTarget(x: Interaction, m: Message) { m.id == x.1 }
  function ReceiverOf(p: (Interaction, Message)): Uuid { p.1.agent }

  // SELECT m.agent_id FROM rel e JOIN messages m ON m.id = e.message_id
  function Receivers(db: Db, rel: seq<Interaction>): seq<Uuid> {
    Map(InnerJoin(rel, db.messages, IsTarget), ReceiverOf)
  }

  predicate On0(a: Agent, id: Uuid) { id == a.id }
  predicate On1(r: Row1, id: Uuid) { id == r.0.id }
  predicate On2(r: Row2, id: Uuid) { id == r.0.0.id }
  predicate On3(r: Row3, id: Uuid) { id == r.0.0.0.id }
  predicate On4(r: Row4, id: Uuid) { id == r.0.0.0.0.id }

  function Id0(a: Agent): Uuid { a.id }
  function Id1(r: Row1): Uuid { r.0.id }
  function Id2(r: Row2): Uuid { r.0.0.id }
  function Id3(r: Row3): Uuid { r.0.0.0.id }
  function Id4(r: Row4): Uuid { r.0.0.0.0.id }

  function SelectStats(r: Row5): AgentWithStats {
    AgentWithStats(r.0.0.0.0.0, Coalesce(r.0.0.0.0.1), Coalesce(r.0.0.0.1), Coalesce(r.0.0.1),
                   Coalesce(r.0.1), Coalesce(r.1))
  }

  // The query of GetAgentWithStats before its WHERE a.id = $1
  function StatsRows(db: Db): seq<AgentWithStats> {
    var rows1 := LeftJoin(db.agents, GroupCount(Map(db.messages, AuthorOf)), On0);
    var rows2 := LeftJoin(rows1, GroupCount(Map(db.endorsements, GiverOf)), On1);
    var rows3 := LeftJoin(rows2, GroupCount(Receivers(db, db.endorsements)), On2);
    var rows4 := LeftJoin(rows3, GroupCount(Map(db.propagations, GiverOf)), On3);
    var rows5 := LeftJoin(rows4, GroupCount(Receivers(db, db.propagations)), On4);
    Map(rows5, SelectStats)
  }

  // The first three of the left joins against grouped keys
  lemma ThreeJoins(agents: seq<Agent>, k1: seq<Uuid>, k2: seq<Uuid>, k3: seq<Uuid>, i: nat)
    ensures
      var rows1 := LeftJoin(agents, GroupCount(k1), On0);
      var rows2 := LeftJoin(rows1, GroupCount(k2), On1);
      var rows3 := LeftJoin(rows2, GroupCount(k3), On2);
      && |rows3| == |agents|
      && (i < |agents| ==>
            var id := agents[i].id;
            && rows3[i].0.0.0 == agents[i] && Coalesce(rows3[i].0.0.1) == Occurs(k1, id)
            && Coalesce(rows3[i].0.1) == Occurs(k2, id) && Coalesce(rows3[i].1) == Occurs(k3, id))
  {
    var rows1 := LeftJoin(agents, GroupCount(k1), On0);
    var rows2 := LeftJoin(rows1, GroupCount(k2), On1);
    LeftJoinCounts(agents, k1, On0, Id0, i);
    LeftJoinCounts(rows1, k2, On1, Id1, i);
    LeftJoinCounts(rows2, k3, On2, Id2, i);
  }

  // ... and the last two
  lemma TwoJoins(rows3: seq<Row3>, k4: seq<Uuid>, k5: seq<Uuid>, i: nat)
    ensures
      var rows4 := LeftJoin(rows3, GroupCount(k4), On3);
      var rows5 := LeftJoin(rows4, GroupCount(k5), On4);
      && |rows5| == |rows3|
      && (i < |rows3| ==>
            var id := rows3[i].0.0.0.id;
            && rows5[i].0.0 == rows3[i]
            && Coalesce(rows5[i].0.1) == Occurs(k4, id) && Coalesce(rows5[i].1) == Occurs(k5, id))
  {
    var rows4 := LeftJoin(rows3, GroupCount(k4), On3);
    LeftJoinCounts(rows3, k4, On3, Id3, i);
    LeftJoinCounts(rows4, k5, On4, Id4, i);
  }

  lemma StatsJoins(db: Db, i: nat)
    ensures |StatsRows(db)| == |db.agents|
    ensures i < |db.agents| ==>
      var id := db.agents[i].id;
      StatsRows(db)[i] == AgentWithStats(db.agents[i],
        Occurs(Map(db.messages, AuthorOf), id),
        Occurs(Map(db.endorsements, GiverOf), id), Occurs(Receivers(db, db.endorsements), id),
        Occurs(Map(db.propagations, GiverOf), id), Occurs(Receivers(db, db.propagations), id))
  {
    var rows1 := LeftJoin(db.agents, GroupCount(Map(db.messages, AuthorOf)), On0);
    var rows2 := LeftJoin(rows1, GroupCount(Map(db.endorsements, GiverOf)), On1);
    var rows3 := LeftJoin(rows2, GroupCount(Receivers(db, db.endorsements)), On2);
    ThreeJoins(db.agents, Map(db.messages, AuthorOf), Map(db.endorsements, GiverOf), Receivers(db, db.endorsements), i);
    TwoJoins(rows3, Map(db.propagations, GiverOf), Receivers(db, db.propagations), i);
  }

  predicate AuthoredBy(db: Db, message: Uuid, agent: Uuid) {
    exists i :: 0 <= i < |db.messages| && db.messages[i].id == message && db.messages[i].agent == agent
  }

  lemma OneAuthor(db: Db, j: nat)
    requires DbOk(db) && j < |db.messages|
    ensures forall a :: AuthoredBy(db, db.messages[j].id, a) <==> a == db.messages[j].agent
  {
  }

  lemma TargetsExist(db: Db, rel: seq<Interaction>)
    requires DbOk(db) && RelationOk(db, rel)
    ensures forall x :: x in rel ==> exists j :: 0 <= j < |db.messages| && IsTarget(x, db.messages[j])
    ensures forall x, j, k :: x in rel && 0 <= j < k < |db.messages| ==>
      !(IsTarget(x, db.messages[j]) && IsTarget(x, db.messages[k]))
  {
    forall x | x in rel ensures exists j :: 0 <= j < |db.messages| && IsTarget(x, db.messages[j]) {
      assert HasMessage(db.messages, x.1);
    }
  }

  lemma ReceiversAreAuthors(db: Db, rel: seq<Interaction>, i: nat)
    requires DbOk(db) && RelationOk(db, rel)
    ensures |Receivers(db, rel)| == |rel|
    ensures i < |rel| ==> forall a :: AuthoredBy(db, rel[i].1, a) <==> a == Receivers(db, rel)[i]
  {
    TargetsExist(db, rel);
    InnerJoinOne(rel, db.messages, IsTarget, i);
    if i < |rel| {
      var m := InnerJoin(rel, db.messages, IsTarget)[i].1;
      var j :| 0 <= j < |db.messages| && db.messages[j] == m;
      OneAuthor(db, j);
    }
  }

  lemma CountReceived(db: Db, rel: seq<Interaction>, id: Uuid)
    requires DbOk(db) && RelationOk(db, rel)
    ensures Occurs(Receivers(db, rel), id) == |set x | x in rel && AuthoredBy(db, x.1, id)|
  {
    ReceiversAreAuthors(db, rel, 0);
    var chosen := set x | x in rel && AuthoredBy(db, x.1, id);
    forall i | 0 <= i < |rel| ensures rel[i] in chosen <==> Receivers(db, rel)[i] == id {
      ReceiversAreAuthors(db, rel, i);
    }
    OccursIsCardinality(rel, Receivers(db, rel), id, chosen);
  }

  lemma CountGiven(rel: seq<Interaction>, id: Uuid)
    requires Distinct(rel)
    ensures Occurs(Map(rel, GiverOf), id) == |set x | x in rel && x.0 == id|
  {
    OccursIsCardinality(rel, Map(rel, GiverOf), id, set x | x in rel && x.0 == id);
  }

  /** One row per agent, and each statistic is the size of the set of rows it is about. */
  lemma StatsAreDirect(db: Db, i: nat)
    requires DbOk(db)
    ensures |StatsRows(db)| == |db.agents|
    ensures i < |db.agents| ==>
      var id := db.agents[i].id;
      StatsRows(db)[i] == AgentWithStats(db.agents[i],
        |set m | m in db.messages && m.agent == id|,
        |set x | x in db.endorsements && x.0 == id|, |set x | x in db.endorsements && AuthoredBy(db, x.1, id)|,
        |set x | x in db.propagations && x.0 == id|, |set x | x in db.propagations && AuthoredBy(db, x.1, id)|)
  {
    StatsJoins(db, i);
    if i < |db.agents| {
      var id := db.agents[i].id;
      OccursIsCardinality(db.messages, Map(db.messages, AuthorOf), id, set m | m in db.messages && m.agent == id);
      CountGiven(db.endorsements, id);
      CountGiven(db.propagations, id);
      CountReceived(db, db.endorsements, id);
      CountReceived(db, db.propagations, id);
    }
  }

  /* ---------- runs ---------- */

  datatype Event =
    | Register(row: Agent)
    | Edit(i: nat, row: Agent)                   // UpdateAgent, SetAllActive
    | Post(post: Message)                        // with a parent: RespondToMessage
    | Endorse(agent: Uuid, message: Uuid)        // a committed toggle
    | Propagate(agent: Uuid, message: Uuid)

  const EMPTY := Db([], [], [], [])

  // DELETE ... WHERE agent_id = $1 AND message_id = $2
  function Without(rel: seq<Interaction>, x: Interaction): seq<Interaction> {
    if rel == [] then []
    else Without(rel[..|rel| - 1], x) + if rel[|rel| - 1] == x then [] else [rel[|rel| - 1]]
  }

  function Toggled(rel: seq<Interaction>, x: Interaction): seq<Interaction> {
    if x in rel then Without(rel, x) else rel + [x]
  }

  // A statement that violates a key leaves the tables alone
  function Apply(db: Db, e: Event): Db {
    match e
    case Register(a) => if HasAgent(db, a.id) then db else db.(agents := db.agents + [a])
    case Edit(i, a) =>
      if i < |db.agents| && db.agents[i].id == a.id then db.(agents := db.agents[i := a]) else db
    case Post(m) =>
      if HasMessage(db.messages, m.id) || !HasAgent(db, m.agent) ||
         (m.parent.Some? && !HasMessage(db.messages, m.parent.value))
      then db else db.(messages := db.messages + [m])
    case Endorse(a, m) =>
      if !HasAgent(db, a) || !HasMessage(db.messages, m) then db
      else db.(endorsements := Toggled(db.endorsements, (a, m)))
    case Propagate(a, m) =>
      if !HasAgent(db, a) || !HasMessage(db.messages, m) then db
      else db.(propagations := Toggled(db.propagations, (a, m)))
  }

  function Run(es: seq<Event>): Db {
    if es == [] then EMPTY else Apply(Run(es[..|es| - 1]), es[|es| - 1])
  }

  lemma {:induction false} WithoutRow(rel: seq<Interaction>, x: Interaction)
    requires Distinct(rel)
    ensures Distinct(Without(rel, x))
    ensures forall y :: y in Without(rel, x) <==> y in rel && y != x
  {
    if rel != [] {
      var n := |rel| - 1;
      WithoutRow(rel[..n], x);
      assert rel == rel[..n] + [rel[n]] && rel[n] !in rel[..n];
    }
  }

  lemma ToggleKeepsRelation(db: Db, rel: seq<Interaction>, x: Interaction)
    requires RelationOk(db, rel) && HasAgent(db, x.0) && HasMessage(db.messages, x.1)
    ensures RelationOk(db, Toggled(rel, x))
  {
    WithoutRow(rel, x);
    forall i | 0 <= i < |Toggled(rel, x)|
      ensures HasAgent(db, Toggled(rel, x)[i].0) && HasMessage(db.messages, Toggled(rel, x)[i].1)
    {
      assert Toggled(rel, x)[i] in Toggled(rel, x);
    }
  }

  // The tables only gain agents and messages, and agents keep their ids
  ghost predicate Knows(db: Db, db': Db) {
    && (forall id :: HasAgent(db, id) ==> HasAgent(db', id))
    && (forall id :: HasMessage(db.messages, id) ==> HasMessage(db'.messages, id))
  }

  lemma GrowthKeepsRelation(db: Db, db': Db, rel: seq<Interaction>)
    requires RelationOk(db, rel) && Knows(db, db')
    ensures RelationOk(db', rel)
  {
  }

  lemma EventKnows(db: Db, e: Event)
    ensures Knows(db, Apply(db, e))
  {
    var db' := Apply(db, e);
    forall id | HasAgent(db, id) ensures HasAgent(db', id) {
      var i :| 0 <= i < |db.agents| && db.agents[i].id == id;
      assert db'.agents[i].id == id;
    }
    forall id | HasMessage(db.messages, id) ensures HasMessage(db'.messages, id) {
      var i :| 0 <= i < |db.messages| && db.messages[i].id == id;
      assert db'.messages[i].id == id;
    }
  }

  lemma EventKeepsRows(db: Db, e: Event)
    requires RowsOk(db) && Knows(db, Apply(db, e))
    ensures RowsOk(Apply(db, e))
  {
    var db' := Apply(db, e);
    forall i | 0 <= i < |db'.messages| && db'.messages[i].parent.Some?
      ensures HasMessage(db'.messages[..i], db'.messages[i].parent.value)
    {
      assert db'.messages[..i] == db.messages[..i];
    }
  }

  lemma EventKeepsDb(db: Db, e: Event)
    requires DbOk(db)
    ensures DbOk(Apply(db, e))
  {
    var db' := Apply(db, e);
    EventKnows(db, e);
    EventKeepsRows(db, e);
    if e.Endorse? && db' != db { ToggleKeepsRelation(db, db.endorsements, (e.agent, e.message)); }
    if e.Propagate? && db' != db { ToggleKeepsRelation(db, db.propagations, (e.agent, e.message)); }
    assert RelationOk(db, db'.endorsements) && RelationOk(db, db'.propagations);
    GrowthKeepsRelation(db, db', db'.endorsements);
    GrowthKeepsRelation(db, db', db'.propagations);
  }

  lemma {:induction false} Reachable(es: seq<Event>)
    ensures DbOk(Run(es))
  {
    if es != [] {
      Reachable(es[..|es| - 1]);
      EventKeepsDb(Run(es[..|es| - 1]), es[|es| - 1]);
    }
  }

  /* ---------- conservation ---------- */

  function MessagesCol(a: AgentWithStats): nat { a.messages }
  function GivenCol(a: AgentWithStats): nat { a.endorsementsGiven }
  function ReceivedCol(a: AgentWithStats): nat { a.endorsementsReceived }
  function PropGivenCol(a: AgentWithStats): nat { a.propagationsGiven }
  function PropReceivedCol(a: AgentWithStats): nat { a.propagationsReceived }
  function EndorsementsCol(m: MessageWithAgent): nat { m.endorsements }
  function PropagationsCol(m: MessageWithAgent): nat { m.propagations }
  function ResponsesCol(m: MessageWithAgent): nat { m.responses }
  function MessageId(m: Message): Uuid { m.id }
  function OwnKey(m: Message): Option<Uuid> { Some(m.id) }

  lemma AgentTotal(db: Db, stats: seq<AgentWithStats>, column: AgentWithStats -> nat, keys: seq<Uuid>)
    requires DbOk(db) && |stats| == |db.agents|
    requires forall i :: 0 <= i < |keys| ==> HasAgent(db, keys[i])
    requires forall i :: 0 <= i < |stats| ==> column(stats[i]) == Occurs(keys, db.agents[i].id)
    ensures Total(Map(stats, column)) == |keys|
  {
    var ids := Map(db.agents, Id0);
    forall j | 0 <= j < |keys| ensures keys[j] in ids {
      assert HasAgent(db, keys[j]);
      var i :| 0 <= i < |db.agents| && db.agents[i].id == keys[j];
      assert ids[i] == keys[j];
    }
    TotalIsAll(ids, keys, Map(stats, column));
  }

  // Every statistic counts the agent's id among the keys it is about
  ghost predicate Counted(db: Db, stats: seq<AgentWithStats>) {
    |stats| == |db.agents| && forall i :: 0 <= i < |stats| ==>
      var id := db.agents[i].id;
      stats[i] == AgentWithStats(db.agents[i],
        Occurs(Map(db.messages, AuthorOf), id),
        Occurs(Map(db.endorsements, GiverOf), id), Occurs(Receivers(db, db.endorsements), id),
        Occurs(Map(db.propagations, GiverOf), id), Occurs(Receivers(db, db.propagations), id))
  }

  lemma StatsAreCounted(db: Db)
    ensures Counted(db, StatsRows(db))
  {
    StatsJoins(db, 0);
    forall i | 0 <= i < |db.agents|
      ensures StatsRows(db)[i] == AgentWithStats(db.agents[i],
        Occurs(Map(db.messages, AuthorOf), db.agents[i].id),
        Occurs(Map(db.endorsements, GiverOf), db.agents[i].id),
        Occurs(Receivers(db, db.endorsements), db.agents[i].id),
        Occurs(Map(db.propagations, GiverOf), db.agents[i].id),
        Occurs(Receivers(db, db.propagations), db.agents[i].id))
    {
      StatsJoins(db, i);
    }
  }

  lemma MessagesTotal(db: Db, stats: seq<AgentWithStats>)
    requires DbOk(db) && Counted(db, stats)
    ensures Total(Map(stats, MessagesCol)) == |db.messages|
  {
    AgentTotal(db, stats, MessagesCol, Map(db.messages, AuthorOf));
  }

  lemma EndorsementTotals(db: Db, stats: seq<AgentWithStats>)
    requires DbOk(db) && Counted(db, stats)
    ensures Total(Map(stats, GivenCol)) == Total(Map(stats, ReceivedCol)) == |db.endorsements|
  {
    ReceiversExist(db, db.endorsements);
    AgentTotal(db, stats, GivenCol, Map(db.endorsements, GiverOf));
    AgentTotal(db, stats, ReceivedCol, Receivers(db, db.endorsements));
  }

  lemma PropagationTotals(db: Db, stats: seq<AgentWithStats>)
    requires DbOk(db) && Counted(db, stats)
    ensures Total(Map(stats, PropGivenCol)) == Total(Map(stats, PropReceivedCol)) == |db.propagations|
  {
    ReceiversExist(db, db.propagations);
    AgentTotal(db, stats, PropGivenCol, Map(db.propagations, GiverOf));
    AgentTotal(db, stats, PropReceivedCol, Receivers(db, db.propagations));
  }

  lemma ReceiversExist(db: Db, rel: seq<Interaction>)
    requires DbOk(db) && RelationOk(db, rel)
    ensures |Receivers(db, rel)| == |rel|
    ensures forall i :: 0 <= i < |rel| ==> HasAgent(db, Receivers(db, rel)[i])
  {
    ReceiversAreAuthors(db, rel, 0);
    forall i | 0 <= i < |rel| ensures HasAgent(db, Receivers(db, rel)[i]) {
      ReceiversAreAuthors(db, rel, i);
      assert AuthoredBy(db, rel[i].1, Receivers(db, rel)[i]);
    }
  }

  // The counts of row i of the stream, by key
  lemma StreamCounts(db: Db, i: nat)
    requires DbOk(db)
    ensures |StreamRows(db)| == |db.messages|
    ensures i < |db.messages| ==>
      var id := db.messages[i].id;
      && StreamRows(db)[i].endorsements == Occurs(Map(db.endorsements, MessageOf), id)
      && StreamRows(db)[i].propagations == Occurs(Map(db.propagations, MessageOf), id)
      && StreamRows(db)[i].responses == Occurs(Map(db.messages, ParentOf), Some(id))
  {
    AuthorJoin(db, i);
    CountJoins(InnerJoin(db.messages, db.agents, IsAuthor), Map(db.endorsements, MessageOf),
               Map(db.propagations, MessageOf), Map(db.messages, ParentOf), i);
  }

  lemma MessageTotal(db: Db, stream: seq<MessageWithAgent>, column: MessageWithAgent -> nat, rel: seq<Interaction>)
    requires DbOk(db) && RelationOk(db, rel) && |stream| == |db.messages|
    requires forall i :: 0 <= i < |stream| ==>
               column(stream[i]) == Occurs(Map(rel, MessageOf), db.messages[i].id)
    ensures Total(Map(stream, column)) == |rel|
  {
    var ids := Map(db.messages, MessageId);
    forall j | 0 <= j < |rel| ensures rel[j].1 in ids {
      assert HasMessage(db.messages, rel[j].1);
      var i :| 0 <= i < |db.messages| && db.messages[i].id == rel[j].1;
      assert ids[i] == rel[j].1;
    }
    TotalIsAll(ids, Map(rel, MessageOf), Map(stream, column));
  }

  // A parent is a message, so a response is counted somewhere exactly if it has one
  lemma ParentIsListed(db: Db, j: nat)
    requires DbOk(db) && j < |db.messages|
    ensures db.messages[j].parent.Some? <==> db.messages[j].parent in Map(db.messages, OwnKey)
  {
    var ids := Map(db.messages, OwnKey);
    if db.messages[j].parent.Some? {
      assert HasMessage(db.messages[..j], db.messages[j].parent.value);
      var i :| 0 <= i < j && db.messages[..j][i].id == db.messages[j].parent.value;
      assert ids[i] == db.messages[j].parent;
    }
  }

  predicate HasParent(m: Message) { m.parent.Some? }

  lemma ResponseTotal(db: Db)
    requires DbOk(db)
    ensures Total(Map(StreamRows(db), ResponsesCol)) == |set m | m in db.messages && m.parent.Some?|
  {
    var ids, parents := Map(db.messages, OwnKey), Map(db.messages, ParentOf);
    var known := Map(db.messages, HasParent);
    StreamCounts(db, 0);
    var counts := Map(StreamRows(db), ResponsesCol);
    forall i | 0 <= i < |ids| ensures counts[i] == Occurs(parents, ids[i]) {
      StreamCounts(db, i);
    }
    forall j | 0 <= j < |parents| ensures known[j] <==> parents[j] in ids {
      ParentIsListed(db, j);
    }
    TotalOccurs(ids, parents, counts, known);
    OccursIsCardinality(db.messages, known, true, set m | m in db.messages && m.parent.Some?);
  }

  /** Conservation. After any run, endorsements given, endorsements received and the endorsement
      counts of all messages each sum to the number of endorsement rows; the same for
      propagations; message counts sum to the messages, and response counts to the messages that
      have a parent. */
  lemma Conserved(es: seq<Event>)
    ensures
      var db := Run(es);
      var agents, stream := StatsRows(db), StreamRows(db);
      && Total(Map(agents, GivenCol)) == Total(Map(agents, ReceivedCol))
         == Total(Map(stream, EndorsementsCol)) == |db.endorsements|
      && Total(Map(agents, PropGivenCol)) == Total(Map(agents, PropReceivedCol))
         == Total(Map(stream, PropagationsCol)) == |db.propagations|
      && Total(Map(agents, MessagesCol)) == |stream| == |db.messages|
      && Total(Map(stream, ResponsesCol)) == |set m | m in db.messages && m.parent.Some?|
  {
    Reachable(es);
    var db := Run(es);
    StatsAreCounted(db);
    MessagesTotal(db, StatsRows(db));
    EndorsementTotals(db, StatsRows(db));
    PropagationTotals(db, StatsRows(db));
    StreamCounts(db, 0);
    forall i | 0 <= i < |db.messages|
      ensures EndorsementsCol(StreamRows(db)[i]) == Occurs(Map(db.endorsements, MessageOf), db.messages[i].id)
      ensures PropagationsCol(StreamRows(db)[i]) == Occurs(Map(db.propagations, MessageOf), db.messages[i].id)
    {
      StreamCounts(db, i);
    }
    MessageTotal(db, StreamRows(db), EndorsementsCol, db.endorsements);
    MessageTotal(db, StreamRows(db), PropagationsCol, db.propagations);
    ResponseTotal(db);
  }

  /* ---------- threads ---------- */

  // Each message of the path is the parent of the one before it
  ghost predicate ParentPath(db: Db, path: seq<Message>) {
    && (forall k :: 0 <= k < |path| ==> path[k] in db.messages)
    && (forall k :: 0 <= k < |path| - 1 ==> path[k].parent == Some(path[k + 1].id))
  }

  lemma ParentIsEarlier(db: Db, i: nat, j: nat)
    requires DbOk(db) && i < |db.messages| && j < |db.messages|
    requires db.messages[i].parent == Some(db.messages[j].id)
    ensures j < i
  {
    assert HasMessage(db.messages[..i], db.messages[i].parent.value);
    var k :| 0 <= k < i && db.messages[..i][k].id == db.messages[j].id;
    assert db.messages[k].id == db.messages[j].id;
  }

  lemma {:induction false} PathGoesBack(db: Db, path: seq<Message>, i: nat, j: nat)
    requires DbOk(db) && ParentPath(db, path) && |path| >= 2
    requires i < |db.messages| && j < |db.messages|
    requires db.messages[i] == path[0] && db.messages[j] == path[|path| - 1]
    ensures j < i
  {
    var k :| 0 <= k < |db.messages| && db.messages[k] == path[1];
    ParentIsEarlier(db, i, k);
    if |path| == 2 {
      assert db.messages[j].id == db.messages[k].id;
    } else {
      PathGoesBack(db, path[1..], k, j);
    }
  }

  /** No message is its own ancestor. */
  lemma NoCycles(es: seq<Event>, path: seq<Message>)
    requires ParentPath(Run(es), path) && |path| >= 2
    ensures path[0] != path[|path| - 1]
  {
    Reachable(es);
    var db := Run(es);
    assert path[0] in db.messages;
    var i :| 0 <= i < |db.messages| && db.messages[i] == path[0];
    var j :| 0 <= j < |db.messages| && db.messages[j] == path[|path| - 1];
    PathGoesBack(db, path, i, j);
  }

  lemma {:induction false} PathToRoot(db: Db, i: nat) returns (path: seq<Message>)
    requires DbOk(db) && i < |db.messages|
    ensures ParentPath(db, path) && path != [] && path[0] == db.messages[i] && path[|path| - 1].parent.None?
    decreases i
  {
    if db.messages[i].parent.None? {
      path := [db.messages[i]];
    } else {
      assert HasMessage(db.messages[..i], db.messages[i].parent.value);
      var j :| 0 <= j < i && db.messages[..i][j].id == db.messages[i].parent.value;
      var rest := PathToRoot(db, j);
      path := [db.messages[i]] + rest;
      forall k | 0 <= k < |path| - 1 ensures path[k].parent == Some(path[k + 1].id) {
        if k > 0 { assert rest[k - 1].parent == Some(rest[k].id); }
      }
    }
  }

  /** Following parents from any message ends at a root. */
  lemma ThreadsHaveRoots(es: seq<Event>, m: Message) returns (path: seq<Message>)
    requires m in Run(es).messages
    ensures ParentPath(Run(es), path) && path != [] && path[0] == m && path[|path| - 1].parent.None?
  {
    Reachable(es);
    var i :| 0 <= i < |Run(es).messages| && Run(es).messages[i] == m;
    path := PathToRoot(Run(es), i);
  }
}
