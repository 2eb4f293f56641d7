/** The statements of the Go API that write the message tables, one call at a time:
    internal/store/pg/interactions.go, CreateMessage and UpdateAgent. Each committed call is one
    event of the runs Conservation speaks about; a failed one leaves the tables alone. */
module ApiStore {
  import opened Options
  import opened Rfc3339
  import opened Cursors
  import opened Database
  import opened Agents
  import C = Conservation

  // Which statements of a transaction the server fails; a failed one rolls the transaction back
  datatype Failing = Failing(begin: bool, delete: bool, insert: bool, commit: bool)

  const NOTHING := Failing(false, false, false, false)

  // Both foreign keys of an interaction
  predicate Refers(db: Db, agentId: Uuid, messageId: Uuid) {
    HasAgent(db, agentId) && HasMessage(db.messages, messageId)
  }

  // What an INSERT into messages is checked against
  predicate Postable(db: Db, m: Message) {
    && !HasMessage(db.messages, m.id) && HasAgent(db, m.agent)
    && (m.parent.Some? ==> HasMessage(db.messages, m.parent.value))
  }

  lemma {:induction false} WithoutLength(rel: seq<Interaction>, x: Interaction)
    ensures |C.Without(rel, x)| <= |rel|
    ensures |C.Without(rel, x)| == |rel| <==> x !in rel
    ensures x !in rel ==> C.Without(rel, x) == rel
    ensures x !in C.Without(rel, x)
  {
    if rel != [] {
      var n := |rel| - 1;
      WithoutLength(rel[..n], x);
      assert rel == rel[..n] + [rel[n]];
    }
  }

  function FindAgent(rows: seq<Agent>, id: Uuid): (r: Option<Agent>)
    ensures r.None? <==> forall i :: 0 <= i < |rows| ==> rows[i].id != id
    ensures r.Some? ==> r.value in rows && r.value.id == id
  {
    if rows == [] then None
    else if rows[0].id == id then Some(rows[0])
    else FindAgent(rows[1..], id)
  }

  // The row of agents with this id, if there is one
  lemma AgentAt(db: Db, id: Uuid) returns (i: nat)
    requires DbOk(db) && HasAgent(db, id)
    ensures i < |db.agents| && db.agents[i].id == id
    ensures forall j :: 0 <= j < |db.agents| && db.agents[j].id == id ==> j == i
    ensures FindAgent(db.agents, id) == Some(db.agents[i])
  {
    i :| 0 <= i < |db.agents| && db.agents[i].id == id;
  }

  // Each supplied field is in the row, and every other field is as it was
  ghost predicate FieldsReplaced(a: Agent, row: Agent, req: UpdateAgentRequest) {
    && row.id == a.id && row.username == a.username
    && row.displayName == (match req.displayName case Some(name) => name case None => a.displayName)
    && row.description == (match req.description case Some(text) => text case None => a.description)
    && row.personality == (match req.personality case Some(json) => json case None => a.personality)
    && row.active == (match req.active case Some(flag) => flag case None => a.active)
  }

  // The agent with this id became row, and nothing else changed
  ghost predicate OnlyReplaces(db: Db, db': Db, id: Uuid, req: UpdateAgentRequest, row: Agent) {
    && |db'.agents| == |db.agents| && db'.messages == db.messages
    && db'.endorsements == db.endorsements && db'.propagations == db.propagations
    && (forall j :: 0 <= j < |db.agents| && db.agents[j].id != id ==> db'.agents[j] == db.agents[j])
    && (forall j :: 0 <= j < |db.agents| && db.agents[j].id == id ==>
          db'.agents[j] == row && FieldsReplaced(db.agents[j], row, req))
  }

  lemma EditReplaces(db: Db, db': Db, i: nat, id: Uuid, req: UpdateAgentRequest, row: Agent)
    requires DbOk(db) && Edited(db, db', i, id, req, row)
    ensures OnlyReplaces(db, db', id, req, row)
  {
  }

  // row i, the agent with this id, became row, its patch
  ghost predicate Edited(db: Db, db': Db, i: nat, id: Uuid, req: UpdateAgentRequest, row: Agent) {
    && i < |db.agents| && db.agents[i].id == id && row == Patch(db.agents[i], req)
    && db' == C.Apply(db, C.Edit(i, row))
  }

  // The statement of a request with fields, on these rows: what it stores and what it returns
  method RunUpdate(rows: seq<Agent>, id: Uuid, req: UpdateAgentRequest, query: seq<Piece>, args: seq<Arg>, down: bool)
    returns (stored: seq<Agent>, agent: Option<Agent>)
    requires Exec(query, args, rows) == Some(Patched(rows, id, req))
    ensures agent == if down then None else FindAgent(Patched(rows, id, req), id)
    ensures stored == if agent.None? then rows else Patched(rows, id, req)
  {
    var updated := Exec(query, args, rows);
    if down || FindAgent(updated.value, id).None? {
      return rows, None;
    }
    return updated.value, FindAgent(updated.value, id);
  }

  lemma PatchedIsEdit(db: Db, i: nat, req: UpdateAgentRequest)
    requires DbOk(db) && i < |db.agents|
    ensures
      var id, row := db.agents[i].id, Patch(db.agents[i], req);
      && Patched(db.agents, id, req) == db.agents[i := row] && FindAgent(db.agents[i := row], id) == Some(row)
      && Edited(db, db.(agents := db.agents[i := row]), i, id, req, row)
  {
    var id, row := db.agents[i].id, Patch(db.agents[i], req);
    assert db.agents[i := row][i] == row;
  }

  // Where the request's patch would go, and that it keeps the tables in order
  lemma Editing(db: Db, id: Uuid, req: UpdateAgentRequest) returns (i: nat)
    requires DbOk(db)
    ensures HasAgent(db, id) <==> FindAgent(db.agents, id).Some?
    ensures !HasAgent(db, id) ==> FindAgent(Patched(db.agents, id, req), id).None?
    ensures HasAgent(db, id) ==>
      && i < |db.agents| && db.agents[i].id == id && FindAgent(db.agents, id) == Some(db.agents[i])
      && FindAgent(Patched(db.agents, id, req), id) == Some(Patch(db.agents[i], req))
      && Edited(db, db.(agents := Patched(db.agents, id, req)), i, id, req, Patch(db.agents[i], req))
      && DbOk(db.(agents := Patched(db.agents, id, req)))
      && (Empty(req) ==> Patched(db.agents, id, req) == db.agents)
  {
    i := 0;
    if HasAgent(db, id) {
      i := AgentAt(db, id);
      PatchedIsEdit(db, i, req);
      C.EventKeepsDb(db, C.Edit(i, Patch(db.agents[i], req)));
    }
  }

  class Store {
    var db: Db

    constructor ()
      ensures db == C.EMPTY
    {
      db := C.EMPTY;
    }

    // Inside a transaction: DELETE, and INSERT if nothing was deleted. None is an error.
    static method ToggleRow(db: Db, rel: seq<Interaction>, x: Interaction, failing: Failing)
      returns (result: Option<(seq<Interaction>, bool)>)
      requires RelationOk(db, rel)
      ensures result.Some? ==> result.value == (C.Toggled(rel, x), x in C.Toggled(rel, x))
      ensures result.Some? ==> Refers(db, x.0, x.1)
      ensures result.None? ==> failing != NOTHING || !Refers(db, x.0, x.1)
    {
      WithoutLength(rel, x);
      if failing.begin || failing.delete {
        return None;
      }
      var rest := C.Without(rel, x);
      var rowsAffected := |rel| - |rest|;
      if rowsAffected == 0 {
        // the two foreign keys
        if failing.insert || !Refers(db, x.0, x.1) || failing.commit {
          return None;
        }
        return Some((rest + [x], true));
      }
      if failing.commit {
        return None;
      }
      return Some((rest, false));
    }

    /** ToggleEndorsement, alone: it adds the row if it was absent and removes it if it was there,
        returns the presence it leaves behind, and changes nothing when it fails. */
    method ToggleEndorsement(agentId: Uuid, messageId: Uuid, failing: Failing) returns (endorsed: Option<bool>)
      requires DbOk(db)
      modifies this
      ensures DbOk(db)
      ensures endorsed.None? ==> db == old(db) && (failing != NOTHING || !Refers(db, agentId, messageId))
      ensures endorsed.Some? ==> Refers(db, agentId, messageId) && db == C.Apply(old(db), C.Endorse(agentId, messageId))
      ensures endorsed.Some? ==> endorsed.value == ((agentId, messageId) in db.endorsements)
      ensures endorsed.Some? ==> endorsed.value == ((agentId, messageId) !in old(db).endorsements)
      ensures forall y :: y != (agentId, messageId) ==> (y in db.endorsements <==> y in old(db).endorsements)
      ensures db.agents == old(db).agents && db.messages == old(db).messages && db.propagations == old(db).propagations
    {
      C.EventKeepsDb(db, C.Endorse(agentId, messageId));
      C.WithoutRow(db.endorsements, (agentId, messageId));
      var toggled := ToggleRow(db, db.endorsements, (agentId, messageId), failing);
      if toggled.None? {
        return None;
      }
      db := db.(endorsements := toggled.value.0);
      return Some(toggled.value.1);
    }

    method TogglePropagation(agentId: Uuid, messageId: Uuid, failing: Failing) returns (propagated: Option<bool>)
      requires DbOk(db)
      modifies this
      ensures DbOk(db)
      ensures propagated.None? ==> db == old(db) && (failing != NOTHING || !Refers(db, agentId, messageId))
      ensures propagated.Some? ==> Refers(db, agentId, messageId) && db == C.Apply(old(db), C.Propagate(agentId, messageId))
      ensures propagated.Some? ==> propagated.value == ((agentId, messageId) in db.propagations)
      ensures propagated.Some? ==> propagated.value == ((agentId, messageId) !in old(db).propagations)
      ensures forall y :: y != (agentId, messageId) ==> (y in db.propagations <==> y in old(db).propagations)
      ensures db.agents == old(db).agents && db.messages == old(db).messages && db.endorsements == old(db).endorsements
    {
      C.EventKeepsDb(db, C.Propagate(agentId, messageId));
      C.WithoutRow(db.propagations, (agentId, messageId));
      var toggled := ToggleRow(db, db.propagations, (agentId, messageId), failing);
      if toggled.None? {
        return None;
      }
      db := db.(propagations := toggled.value.0);
      return Some(toggled.value.1);
    }

    // id and now are what the server generates for the row
    method CreateMessage(agentId: Uuid, content: string, parent: Option<Uuid>, id: Uuid, now: Time, down: bool)
      returns (created: Option<Message>)
      requires DbOk(db)
      modifies this
      ensures DbOk(db)
      ensures created.Some? ==> created.value == Message(id, agentId, content, parent, now)
      ensures created.Some? ==> db == C.Apply(old(db), C.Post(created.value))
      ensures created.Some? ==> db.messages == old(db).messages + [created.value]
      ensures db.agents == old(db).agents
      ensures db.endorsements == old(db).endorsements && db.propagations == old(db).propagations
      ensures created.None? ==> db == old(db)
      ensures created.Some? <==>
        && !down && (forall j :: 0 <= j < |old(db).messages| ==> old(db).messages[j].id != id)
        && (exists j :: 0 <= j < |old(db).agents| && old(db).agents[j].id == agentId)
        && (parent.Some? ==> exists j :: 0 <= j < |old(db).messages| && old(db).messages[j].id == parent.value)
      ensures created.None? <==> down || !Postable(old(db), Message(id, agentId, content, parent, now))
    {
      var m := Message(id, agentId, content, parent, now);
      C.EventKeepsDb(db, C.Post(m));
      if down || !Postable(db, m) {
        return None;
      }
      db := db.(messages := db.messages + [m]);
      return Some(m);
    }

    method GetAgent(id: Uuid, down: bool) returns (agent: Option<Agent>)
      ensures agent == if down then None else FindAgent(db.agents, id)
    {
      agent := if down then None else FindAgent(db.agents, id);
    }

    /** UpdateAgent returns the agent with the supplied fields replaced and every other field as it
        was, and stores that row; a request without fields only reads it. An unknown agent and a
        failing server are errors that change nothing. */
    method UpdateAgent(id: Uuid, req: UpdateAgentRequest, down: bool) returns (agent: Option<Agent>)
      requires DbOk(db)
      modifies this
      ensures DbOk(db)
      ensures agent.None? <==> down || !HasAgent(old(db), id)
      ensures agent.None? ==> db == old(db)
      ensures agent.Some? ==> exists i: nat :: Edited(old(db), db, i, id, req, agent.value)
      ensures agent.Some? ==> OnlyReplaces(old(db), db, id, req, agent.value)
    {
      ghost var was := db;
      ghost var i := Editing(db, id, req);
      var query, args := BuildUpdate(id, req);
      if query == [] {
        agent := GetAgent(id, down);
        if agent.Some? { EditReplaces(was, db, i, id, req, agent.value); }
        return;
      }
      var rows;
      rows, agent := RunUpdate(db.agents, id, req, query, args, down);
      db := db.(agents := rows);
      if agent.Some? { EditReplaces(was, db, i, id, req, agent.value); }
    }
  }
}
