/** The message tables (migrations/001_initial_schema.sql) and the aggregate queries over them. */
module Database {
  import opened Options
  import opened Sequences
  import opened Joins
  import opened Rfc3339
  import opened Cursors

  datatype Agent = Agent(id: Uuid, username: string, displayName: string,
                         description: string, personality: string, active: bool)

  datatype Message = Message(id: Uuid, agent: Uuid, content: string, parent: Option<Uuid>, createdAt: Time)

  datatype MessageWithAgent = MessageWithAgent(message: Message, username: string, displayName: string,
                                               endorsements: nat, propagations: nat, responses: nat)

  datatype AgentWithStats = AgentWithStats(agent: Agent, messages: nat,
                                           endorsementsGiven: nat, endorsementsReceived: nat,
                                           propagationsGiven: nat, propagationsReceived: nat)

  // (agent_id, message_id)
  type Interaction = (Uuid, Uuid)

  // Rows in insertion order
  datatype Db = Db(agents: seq<Agent>, messages: seq<Message>,
                   endorsements: seq<Interaction>, propagations: seq<Interaction>)

  /* ---------- constraints of the schema ---------- */

  predicate HasAgent(db: Db, id: Uuid) {
    exists i :: 0 <= i < |db.agents| && db.agents[i].id == id
  }

  predicate HasMessage(messages: seq<Message>, id: Uuid) {
    exists i :: 0 <= i < |messages| && messages[i].id == id
  }

  predicate RelationOk(db: Db, rel: seq<Interaction>) {
    && (forall i, j :: 0 <= i < j < |rel| ==> rel[i] != rel[j])
    && (forall i :: 0 <= i < |rel| ==> HasAgent(db, rel[i].0) && HasMessage(db.messages, rel[i].1))
  }

  // Primary and foreign keys of agents and messages, and a parent that was there before its response
  ghost predicate RowsOk(db: Db) {
    && (forall i, j :: 0 <= i < j < |db.agents| ==> db.agents[i].id != db.agents[j].id)
    && (forall i, j :: 0 <= i < j < |db.messages| ==> db.messages[i].id != db.messages[j].id)
    && (forall i :: 0 <= i < |db.messages| ==> HasAgent(db, db.messages[i].agent))
    && (forall i :: 0 <= i < |db.messages| && db.messages[i].parent.Some? ==>
          HasMessage(db.messages[..i], db.messages[i].parent.value))
  }

  ghost predicate DbOk(db: Db) {
    RowsOk(db) && RelationOk(db, db.endorsements) && RelationOk(db, db.propagations)
  }

  /* ---------- the stream query: GetMessageWithAgent, ListMessages, GetResponses ---------- */

  type Row0 = (Message, Agent)
  type Row1 = (Row0, Option<nat>)
  type Row2 = (Row1, Option<nat>)
  type Row3 = (Row2, Option<nat>)

  function MessageOf(x: Interaction): Uuid {
    x.1
  }

  function ParentOf(m: Message): Option<Uuid> {
    m.parent
  }

  // a.id = m.agent_id
  predicate IsAuthor(m: Message, a: Agent) {
    a.id == m.agent
  }

  predicate OnMessage0(r: Row0, id: Uuid) {
    id == r.0.id
  }

  predicate OnMessage1(r: Row1, id: Uuid) {
    id == r.0.0.id
  }

  // r.parent_msg_id = m.id, which a NULL parent_msg_id never satisfies
  predicate OnParent(r: Row2, parent: Option<Uuid>) {
    parent.Some? && parent.value == r.0.0.0.id
  }

  function Select(r: Row3): MessageWithAgent {
    MessageWithAgent(r.0.0.0.0, r.0.0.0.1.username, r.0.0.0.1.displayName,
                     Coalesce(r.0.0.1), Coalesce(r.0.1), Coalesce(r.1))
  }

  function StreamRows(db: Db): seq<MessageWithAgent> {
    var rows0 := InnerJoin(db.messages, db.agents, IsAuthor);
    var rows1 := LeftJoin(rows0, GroupCount(Map(db.endorsements, MessageOf)), OnMessage0);
    var rows2 := LeftJoin(rows1, GroupCount(Map(db.propagations, MessageOf)), OnMessage1);
    var rows3 := LeftJoin(rows2, GroupCount(Map(db.messages, ParentOf)), OnParent);
    Map(rows3, Select)
  }

  // What the query is for, without joins or groups
  ghost predicate IsDirect(db: Db, m: Message, row: MessageWithAgent) {
    && row.message == m
    && (exists i :: 0 <= i < |db.agents| && db.agents[i].id == m.agent &&
          row.username == db.agents[i].username && row.displayName == db.agents[i].displayName)
    && row.endorsements == |set x | x in db.endorsements && x.1 == m.id|
    && row.propagations == |set x | x in db.propagations && x.1 == m.id|
    && row.responses == |set c | c in db.messages && c.parent == Some(m.id)|
  }

  lemma CountOnMessage(rel: seq<Interaction>, id: Uuid)
    requires Distinct(rel)
    ensures Occurs(Map(rel, MessageOf), id) == |set x | x in rel && x.1 == id|
  {
    OccursIsCardinality(rel, Map(rel, MessageOf), id, set x | x in rel && x.1 == id);
  }

  lemma CountResponses(messages: seq<Message>, id: Uuid)
    requires Distinct(messages)
    ensures Occurs(Map(messages, ParentOf), Some(id)) == |set c | c in messages && c.parent == Some(id)|
  {
    OccursIsCardinality(messages, Map(messages, ParentOf), Some(id), set c | c in messages && c.parent == Some(id));
  }

  function Id0(r: Row0): Uuid {
    r.0.id
  }

  function Id1(r: Row1): Uuid {
    r.0.0.id
  }

  function Id2(r: Row2): Option<Uuid> {
    Some(r.0.0.0.id)
  }

  lemma AuthorJoin(db: Db, i: nat)
    requires DbOk(db)
    ensures var rows := InnerJoin(db.messages, db.agents, IsAuthor);
      |rows| == |db.messages| &&
      (i < |rows| ==> rows[i].0 == db.messages[i] && rows[i].1 in db.agents && rows[i].1.id == db.messages[i].agent)
  {
    forall m | m in db.messages ensures exists j :: 0 <= j < |db.agents| && IsAuthor(m, db.agents[j]) {
      assert HasAgent(db, m.agent);
    }
    InnerJoinOne(db.messages, db.agents, IsAuthor, i);
  }

  lemma CountJoins(rows0: seq<Row0>, endorsed: seq<Uuid>, propagated: seq<Uuid>, parents: seq<Option<Uuid>>, i: nat)
    ensures
      var rows1 := LeftJoin(rows0, GroupCount(endorsed), OnMessage0);
      var rows2 := LeftJoin(rows1, GroupCount(propagated), OnMessage1);
      var rows3 := LeftJoin(rows2, GroupCount(parents), OnParent);
      |rows3| == |rows0| &&
      (i < |rows3| ==>
        var id := rows0[i].0.id;
        Select(rows3[i]) == MessageWithAgent(rows0[i].0, rows0[i].1.username, rows0[i].1.displayName,
          Occurs(endorsed, id), Occurs(propagated, id), Occurs(parents, Some(id))))
  {
    var rows1 := LeftJoin(rows0, GroupCount(endorsed), OnMessage0);
    var rows2 := LeftJoin(rows1, GroupCount(propagated), OnMessage1);
    LeftJoinCounts(rows0, endorsed, OnMessage0, Id0, i);
    LeftJoinCounts(rows1, propagated, OnMessage1, Id1, i);
    LeftJoinCounts(rows2, parents, OnParent, Id2, i);
  }

  /** The joined query returns one row per message, in table order, with its author's names; each
      count is the size of the corresponding set of rows, and a NULL parent counts for nobody. */
  lemma StreamIsDirect(db: Db, i: nat)
    requires DbOk(db)
    ensures |StreamRows(db)| == |db.messages|
    ensures i < |db.messages| ==> IsDirect(db, db.messages[i], StreamRows(db)[i])
  {
    AuthorJoin(db, i);
    CountJoins(InnerJoin(db.messages, db.agents, IsAuthor), Map(db.endorsements, MessageOf),
               Map(db.propagations, MessageOf), Map(db.messages, ParentOf), i);
    if i < |db.messages| {
      var id := db.messages[i].id;
      CountOnMessage(db.endorsements, id);
      CountOnMessage(db.propagations, id);
      CountResponses(db.messages, id);
    }
  }

  lemma StreamMessages(db: Db)
    requires DbOk(db)
    ensures |StreamRows(db)| == |db.messages|
    ensures forall i :: 0 <= i < |db.messages| ==> StreamRows(db)[i].message == db.messages[i]
  {
    StreamIsDirect(db, 0);
    forall i | 0 <= i < |db.messages| ensures StreamRows(db)[i].message == db.messages[i] {
      StreamIsDirect(db, i);
    }
  }
}
