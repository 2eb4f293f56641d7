/** GetMessageWithAgent and GetResponses: one message of the stream query, and those that answer it. */
module Threads {
  import opened Options
  import opened Joins
  import opened Rfc3339
  import opened Cursors
  import opened Database
  import C = Conservation

  type Row = MessageWithAgent

  // WHERE m.id = $1
  function WithId(rows: seq<Row>, id: Uuid): Option<Row> {
    if rows == [] then None else if rows[0].message.id == id then Some(rows[0]) else WithId(rows[1..], id)
  }

  // WHERE m.parent_msg_id = $1
  function WithParent(rows: seq<Row>, id: Uuid): seq<Row> {
    if rows == [] then []
    else
      var n := |rows| - 1;
      WithParent(rows[..n], id) + if rows[n].message.parent == Some(id) then [rows[n]] else []
  }

  // ORDER BY m.created_at DESC, in any order among equal times
  ghost predicate IsResponses(db: Db, id: Uuid, rows: seq<Row>) {
    && multiset(rows) == multiset(WithParent(StreamRows(db), id))
    && (forall i, j :: 0 <= i < j < |rows| ==>
          Instant(rows[j].message.createdAt) <= Instant(rows[i].message.createdAt))
  }

  lemma {:induction false} WithIdFinds(rows: seq<Row>, id: Uuid, i: nat)
    requires i < |rows| && rows[i].message.id == id
    requires forall j :: 0 <= j < |rows| && j != i ==> rows[j].message.id != id
    ensures WithId(rows, id) == Some(rows[i])
  {
    if i > 0 { WithIdFinds(rows[1..], id, i - 1); }
  }

  lemma {:induction false} WithParentCounts(rows: seq<Row>, messages: seq<Message>, id: Uuid)
    requires |rows| == |messages| && forall i :: 0 <= i < |rows| ==> rows[i].message == messages[i]
    ensures |WithParent(rows, id)| == Occurs(Map(messages, ParentOf), Some(id))
  {
    if rows != [] {
      var n := |rows| - 1;
      WithParentCounts(rows[..n], messages[..n], id);
      assert Map(messages, ParentOf)[..n] == Map(messages[..n], ParentOf);
    }
  }

  lemma {:induction false} WithParentKeeps(rows: seq<Row>, id: Uuid)
    ensures forall x :: x in WithParent(rows, id) <==> x in rows && x.message.parent == Some(id)
  {
    if rows != [] {
      var n := |rows| - 1;
      WithParentKeeps(rows[..n], id);
      assert rows == rows[..n] + [rows[n]];
    }
  }

  /** GetResponses returns the rows of the stream whose parent is the message, newest first. */
  lemma ResponsesAre(db: Db, id: Uuid, rows: seq<Row>)
    requires IsResponses(db, id, rows)
    ensures forall x :: x in rows <==> x in StreamRows(db) && x.message.parent == Some(id)
    ensures forall i, j :: 0 <= i < j < |rows| ==>
      Instant(rows[j].message.createdAt) <= Instant(rows[i].message.createdAt)
  {
    WithParentKeeps(StreamRows(db), id);
    forall x ensures x in rows <==> x in WithParent(StreamRows(db), id) {
      assert x in rows <==> x in multiset(rows);
      assert x in WithParent(StreamRows(db), id) <==> x in multiset(WithParent(StreamRows(db), id));
    }
  }

  /** The response_count a message is shown with is the number of rows GetResponses returns for it. */
  lemma ResponseCountAgrees(db: Db, i: nat, rows: seq<Row>)
    requires DbOk(db) && i < |db.messages| && IsResponses(db, db.messages[i].id, rows)
    ensures
      var shown := WithId(StreamRows(db), db.messages[i].id);
      shown.Some? && shown.value.message == db.messages[i] && |rows| == shown.value.responses
  {
    var id := db.messages[i].id;
    StreamMessages(db);
    WithIdFinds(StreamRows(db), id, i);
    WithParentCounts(StreamRows(db), db.messages, id);
    C.StreamCounts(db, i);
    assert |multiset(rows)| == |rows|;
  }
}
