/** The message stream (internal/store/pg/messages.go): the query ListMessages builds, the page it
    returns, and walks over pages read from different states of the tables. */
module Messages {
  import opened Options
  import opened Rfc3339
  import opened Cursors
  import opened Database

  type Row = MessageWithAgent

  /* ---------- the order (created_at, id) ---------- */

  datatype Key = Key(at: int, id: nat)

  function CursorKey(c: Cursor): Key {
    Key(Instant(c.createdAt), c.id)
  }

  function CursorOf(r: Row): Cursor {
    Cursor(r.message.createdAt, r.message.id)
  }

  function KeyOf(r: Row): Key {
    CursorKey(CursorOf(r))
  }

  // (a.created_at, a.id) < (b.created_at, b.id)
  predicate Older(a: Key, b: Key) {
    a.at < b.at || (a.at == b.at && a.id < b.id)
  }

  ghost predicate Descending(rows: seq<Row>) {
    forall i, j :: 0 <= i < j < |rows| ==> Older(KeyOf(rows[j]), KeyOf(rows[i]))
  }

  // The primary key: rows with the same id are the same row of the result
  ghost predicate IdsDistinct(rows: seq<Row>) {
    forall i, j :: 0 <= i < j < |rows| ==> rows[i].message.id != rows[j].message.id
  }

  /* ---------- the query text and its meaning ---------- */

  // A clause of the query; the numbers are its $ placeholders
  datatype Clause =
    | Before(at: nat, id: nat)     // WHERE (m.created_at, m.id) < ($at, $id)
    | Everything                   // WHERE 1=1
    | AuthorIs(id: nat)            // AND m.agent_id = $id
    | NewestFirst(limit: nat)      // ORDER BY m.created_at DESC, m.id DESC LIMIT $limit

  datatype Arg = TimeArg(t: Time) | UuidArg(u: Uuid) | IntArg(n: int)

  function ArgAt(args: seq<Arg>, p: nat): Option<Arg> {
    if 1 <= p <= |args| then Some(args[p - 1]) else None
  }

  predicate IsTimeArg(a: Option<Arg>) { a.Some? && a.value.TimeArg? }
  predicate IsUuidArg(a: Option<Arg>) { a.Some? && a.value.UuidArg? }
  predicate IsIntArg(a: Option<Arg>) { a.Some? && a.value.IntArg? }

  function Uses(c: Clause): set<nat> {
    match c
    case Before(at, id) => {at, id}
    case Everything => {}
    case AuthorIs(id) => {id}
    case NewestFirst(limit) => {limit}
  }

  function AllUses(query: seq<Clause>): set<nat> {
    if query == [] then {} else Uses(query[0]) + AllUses(query[1..])
  }

  // The server takes exactly the parameters the text mentions
  predicate Binds(query: seq<Clause>, args: seq<Arg>) {
    && (forall p :: p in AllUses(query) ==> 1 <= p <= |args|)
    && (forall p :: 1 <= p <= |args| ==> p in AllUses(query))
  }

  predicate Selected(r: Row, before: Option<Key>, agent: Option<Uuid>) {
    (before.Some? ==> Older(KeyOf(r), before.value)) && (agent.Some? ==> r.message.agent == agent.value)
  }

  // The rows the WHERE conditions given keep
  function Keep(rows: seq<Row>, before: Option<Key>, agent: Option<Uuid>): seq<Row> {
    if rows == [] then []
    else
      var n := |rows| - 1;
      Keep(rows[..n], before, agent) + if Selected(rows[n], before, agent) then [rows[n]] else []
  }

  function Insert(r: Row, sorted: seq<Row>): seq<Row> {
    if sorted == [] || Older(KeyOf(sorted[0]), KeyOf(r)) then [r] + sorted
    else [sorted[0]] + Insert(r, sorted[1..])
  }

  function Sort(rows: seq<Row>): seq<Row> {
    if rows == [] then [] else Insert(rows[|rows| - 1], Sort(rows[..|rows| - 1]))
  }

  function Take(rows: seq<Row>, n: nat): seq<Row> {
    if n < |rows| then rows[..n] else rows
  }

  // One clause applied to the rows so far; None is an error of the server
  function ExecClause(c: Clause, args: seq<Arg>, rows: seq<Row>): Option<seq<Row>> {
    match c
    case Before(at, id) =>
      if IsTimeArg(ArgAt(args, at)) && IsUuidArg(ArgAt(args, id)) then
        Some(Keep(rows, Some(Key(Instant(ArgAt(args, at).value.t), ArgAt(args, id).value.u)), None))
      else None
    case Everything => Some(rows)
    case AuthorIs(id) =>
      if IsUuidArg(ArgAt(args, id)) then Some(Keep(rows, None, Some(ArgAt(args, id).value.u))) else None
    case NewestFirst(limit) =>
      if IsIntArg(ArgAt(args, limit)) && ArgAt(args, limit).value.n >= 0
      then Some(Take(Sort(rows), ArgAt(args, limit).value.n)) else None
  }

  function ExecClauses(query: seq<Clause>, args: seq<Arg>, rows: seq<Row>): Option<seq<Row>> {
    if query == [] then Some(rows)
    else
      var first := ExecClause(query[0], args, rows);
      if first.None? then None else ExecClauses(query[1..], args, first.value)
  }

  function Exec(query: seq<Clause>, args: seq<Arg>, rows: seq<Row>): Option<seq<Row>> {
    if Binds(query, args) then ExecClauses(query, args, rows) else None
  }

  /* ---------- what a page is ---------- */

  datatype Page = Page(messages: seq<Row>, next: Option<Cursor>, hasMore: bool)

  function Position(cursor: Option<Cursor>): Option<Key> {
    if cursor.None? then None else Some(CursorKey(cursor.value))
  }

  function Candidates(rows: seq<Row>, before: Option<Key>, agent: Option<Uuid>): seq<Row> {
    Sort(Keep(rows, before, agent))
  }

  function NextCursor(messages: seq<Row>): Option<Cursor> {
    if messages == [] then None else Some(CursorOf(messages[|messages| - 1]))
  }

  function PageOf(rows: seq<Row>, cursor: Option<Cursor>, agent: Option<Uuid>, limit: nat): Page {
    var all := Candidates(rows, Position(cursor), agent);
    Page(Take(all, limit), NextCursor(Take(all, limit)), |all| > limit)
  }

  /* ---------- what a page holds ---------- */

  lemma {:induction false} InsertSorts(r: Row, sorted: seq<Row>)
    requires Descending(sorted) && forall i :: 0 <= i < |sorted| ==> sorted[i].message.id != r.message.id
    ensures Descending(Insert(r, sorted)) && |Insert(r, sorted)| == |sorted| + 1
    ensures forall x :: x in Insert(r, sorted) <==> x == r || x in sorted
  {
    if sorted != [] && !Older(KeyOf(sorted[0]), KeyOf(r)) {
      var rest := Insert(r, sorted[1..]);
      InsertSorts(r, sorted[1..]);
      assert sorted == [sorted[0]] + sorted[1..];
      forall j | 0 <= j < |rest| ensures Older(KeyOf(rest[j]), KeyOf(sorted[0])) {
        assert rest[j] in rest;
      }
    }
  }

  lemma {:induction false} SortSorts(rows: seq<Row>)
    requires IdsDistinct(rows)
    ensures Descending(Sort(rows)) && |Sort(rows)| == |rows|
    ensures forall x :: x in Sort(rows) <==> x in rows
  {
    if rows != [] {
      var n := |rows| - 1;
      SortSorts(rows[..n]);
      assert rows == rows[..n] + [rows[n]];
      var before := Sort(rows[..n]);
      forall i | 0 <= i < |before| ensures before[i].message.id != rows[n].message.id {
        assert before[i] in before;
      }
      InsertSorts(rows[n], before);
    }
  }

  lemma {:induction false} KeepKeeps(rows: seq<Row>, before: Option<Key>, agent: Option<Uuid>)
    requires IdsDistinct(rows)
    ensures IdsDistinct(Keep(rows, before, agent))
    ensures forall x :: x in Keep(rows, before, agent) <==> x in rows && Selected(x, before, agent)
  {
    if rows != [] {
      var n := |rows| - 1;
      KeepKeeps(rows[..n], before, agent);
      assert rows == rows[..n] + [rows[n]];
      var kept := Keep(rows[..n], before, agent);
      forall i | 0 <= i < |kept| ensures kept[i].message.id != rows[n].message.id {
        assert kept[i] in kept;
      }
    }
  }

  // The candidates, newest first, each once
  lemma CandidatesAre(rows: seq<Row>, before: Option<Key>, agent: Option<Uuid>)
    requires IdsDistinct(rows)
    ensures Descending(Candidates(rows, before, agent))
    ensures forall x :: x in Candidates(rows, before, agent) <==> x in rows && Selected(x, before, agent)
  {
    KeepKeeps(rows, before, agent);
    SortSorts(Keep(rows, before, agent));
  }

  lemma TopDescends(all: seq<Row>, limit: nat, i: nat, j: nat)
    requires Descending(all) && i < |Take(all, limit)| <= j < |all|
    ensures Older(KeyOf(all[j]), KeyOf(Take(all, limit)[i])) && all[j] !in Take(all, limit)
  {
    forall k | 0 <= k < |Take(all, limit)| ensures Take(all, limit)[k] != all[j] {
      assert Older(KeyOf(all[j]), KeyOf(all[k]));
    }
  }

  // A candidate is on the page, or below all of it
  lemma PageSplits(rows: seq<Row>, cursor: Option<Cursor>, agent: Option<Uuid>, limit: nat, x: Row)
    requires IdsDistinct(rows) && x in rows && Selected(x, Position(cursor), agent)
    ensures var p := PageOf(rows, cursor, agent, limit);
      x in p.messages ||
      (p.hasMore && forall i :: 0 <= i < |p.messages| ==> Older(KeyOf(x), KeyOf(p.messages[i])))
  {
    var all := Candidates(rows, Position(cursor), agent);
    CandidatesAre(rows, Position(cursor), agent);
    assert x in all;
    var j :| 0 <= j < |all| && all[j] == x;
    var page := Take(all, limit);
    if j < |page| {
      assert page[j] == x;
    } else {
      forall i | 0 <= i < |page| ensures Older(KeyOf(x), KeyOf(page[i])) {
        TopDescends(all, limit, i, j);
      }
    }
  }

  lemma PageWithin(rows: seq<Row>, cursor: Option<Cursor>, agent: Option<Uuid>, limit: nat)
    requires IdsDistinct(rows)
    ensures var p := PageOf(rows, cursor, agent, limit);
      && Descending(p.messages) && |p.messages| <= limit && (p.hasMore ==> |p.messages| == limit)
      && forall x :: x in p.messages ==> x in rows && Selected(x, Position(cursor), agent)
  {
    var all := Candidates(rows, Position(cursor), agent);
    CandidatesAre(rows, Position(cursor), agent);
    forall x | x in Take(all, limit) ensures x in rows && Selected(x, Position(cursor), agent) {
      assert x in all;
    }
  }

  // There is more exactly when a candidate is left out
  lemma MoreMeansLeftOut(rows: seq<Row>, cursor: Option<Cursor>, agent: Option<Uuid>, limit: nat)
    requires IdsDistinct(rows)
    ensures var p := PageOf(rows, cursor, agent, limit);
      p.hasMore <==> exists x :: x in rows && Selected(x, Position(cursor), agent) && x !in p.messages
  {
    var all, p := Candidates(rows, Position(cursor), agent), PageOf(rows, cursor, agent, limit);
    CandidatesAre(rows, Position(cursor), agent);
    if p.hasMore {
      assert all[limit] in all;
      if limit > 0 { TopDescends(all, limit, 0, limit); }
    } else {
      forall x | x in rows && Selected(x, Position(cursor), agent) ensures x in p.messages {
        PageSplits(rows, cursor, agent, limit, x);
      }
    }
  }

  /** A page is the top of its candidates: strictly descending, at most limit of them, and full
      unless nothing is left; every candidate it leaves out is older than all it holds, and there
      is one exactly when it reports more. */
  lemma PageIsTop(rows: seq<Row>, cursor: Option<Cursor>, agent: Option<Uuid>, limit: nat)
    requires IdsDistinct(rows)
    ensures
      var p := PageOf(rows, cursor, agent, limit);
      && Descending(p.messages) && |p.messages| <= limit && (p.hasMore ==> |p.messages| == limit)
      && (forall x :: x in p.messages ==> x in rows && Selected(x, Position(cursor), agent))
      && (forall x, i | x in rows && Selected(x, Position(cursor), agent) && x !in p.messages && 0 <= i < |p.messages|
            :: Older(KeyOf(x), KeyOf(p.messages[i])))
      && (p.hasMore <==> exists x :: x in rows && Selected(x, Position(cursor), agent) && x !in p.messages)
  {
    var p := PageOf(rows, cursor, agent, limit);
    PageWithin(rows, cursor, agent, limit);
    MoreMeansLeftOut(rows, cursor, agent, limit);
    forall x, i | x in rows && Selected(x, Position(cursor), agent) && x !in p.messages && 0 <= i < |p.messages|
      ensures Older(KeyOf(x), KeyOf(p.messages[i]))
    {
      PageSplits(rows, cursor, agent, limit, x);
    }
  }

  // How many rows a list without repeats holds
  lemma {:induction false} RowsCounted(rows: seq<Row>)
    requires forall i, j :: 0 <= i < j < |rows| ==> rows[i] != rows[j]
    ensures |set x | x in rows| == |rows|
  {
    if rows == [] {
      assert (set x | x in rows) == {};
    } else {
      var n := |rows| - 1;
      RowsCounted(rows[..n]);
      assert rows == rows[..n] + [rows[n]] && rows[n] !in rows[..n];
      assert (set x | x in rows) == (set x | x in rows[..n]) + {rows[n]};
    }
  }

  // The row is by the agent, and after the cursor in the stream, if they are given
  ghost predicate Wanted(x: Row, cursor: Option<Cursor>, agent: Option<Uuid>) {
    && (cursor.Some? ==>
          var s, t := Instant(x.message.createdAt), Instant(cursor.value.createdAt);
          s < t || (s == t && x.message.id < cursor.value.id))
    && (agent.Some? ==> x.message.agent == agent.value)
  }

  function Least(a: nat, b: nat): nat {
    if a <= b then a else b
  }

  /** A page holds as many of the wanted rows as the limit lets it. */
  lemma PageFills(rows: seq<Row>, cursor: Option<Cursor>, agent: Option<Uuid>, limit: nat)
    requires IdsDistinct(rows)
    ensures |PageOf(rows, cursor, agent, limit).messages| == Least(limit, |set x | x in rows && Wanted(x, cursor, agent)|)
  {
    var all := Candidates(rows, Position(cursor), agent);
    CandidatesAre(rows, Position(cursor), agent);
    RowsCounted(all);
    assert (set x | x in rows && Wanted(x, cursor, agent)) == (set x | x in all);
  }

  /* ---------- running the query ---------- */

  lemma {:induction false} KeepTwice(rows: seq<Row>, k: Key, a: Uuid)
    ensures Keep(Keep(rows, Some(k), None), None, Some(a)) == Keep(rows, Some(k), Some(a))
  {
    if rows != [] {
      var n := |rows| - 1;
      KeepTwice(rows[..n], k, a);
      var once := Keep(rows, Some(k), None);
      if Selected(rows[n], Some(k), None) {
        assert once == Keep(rows[..n], Some(k), None) + [rows[n]];
        assert once[..|once| - 1] == Keep(rows[..n], Some(k), None);
      } else {
        assert once == Keep(rows[..n], Some(k), None);
      }
    }
  }

  lemma {:induction false} KeepAll(rows: seq<Row>)
    ensures Keep(rows, None, None) == rows
  {
    if rows != [] { KeepAll(rows[..|rows| - 1]); }
  }

  lemma OneClause(c: Clause, args: seq<Arg>, rows: seq<Row>)
    ensures AllUses([c]) == Uses(c)
    ensures ExecClauses([c], args, rows) == ExecClause(c, args, rows)
  {
    assert [c][1..] == [];
    assert AllUses([]) == {};
  }

  lemma TwoClauses(c: Clause, d: Clause, args: seq<Arg>, rows: seq<Row>)
    ensures AllUses([c, d]) == Uses(c) + Uses(d)
    ensures ExecClauses([c, d], args, rows) ==
      var r := ExecClause(c, args, rows);
      if r.None? then None else ExecClause(d, args, r.value)
  {
    assert [c, d][1..] == [d];
    OneClause(d, args, rows);
    var r := ExecClause(c, args, rows);
    if r.Some? { OneClause(d, args, r.value); }
  }

  lemma ThreeClauses(c: Clause, d: Clause, e: Clause, args: seq<Arg>, rows: seq<Row>)
    ensures AllUses([c, d, e]) == Uses(c) + Uses(d) + Uses(e)
    ensures ExecClauses([c, d, e], args, rows) ==
      var r := ExecClause(c, args, rows);
      if r.None? then None else ExecClauses([d, e], args, r.value)
  {
    assert [c, d, e][1..] == [d, e];
    TwoClauses(d, e, args, rows);
  }

  lemma BothBind(args: seq<Arg>, c: Cursor, a: Uuid, n: nat)
    requires args == [TimeArg(c.createdAt), UuidArg(c.id), UuidArg(a), IntArg(n)]
    ensures Binds([Before(1, 2), AuthorIs(3), NewestFirst(4)], args)
    ensures ArgAt(args, 1) == Some(TimeArg(c.createdAt)) && ArgAt(args, 2) == Some(UuidArg(c.id))
    ensures ArgAt(args, 3) == Some(UuidArg(a)) && ArgAt(args, 4) == Some(IntArg(n))
  {
    ThreeClauses(Before(1, 2), AuthorIs(3), NewestFirst(4), args, []);
    assert AllUses([Before(1, 2), AuthorIs(3), NewestFirst(4)]) == {1, 2, 3, 4};
  }

  lemma RunsWithBoth(rows: seq<Row>, c: Cursor, a: Uuid, n: nat)
    ensures Exec([Before(1, 2), AuthorIs(3), NewestFirst(4)],
                 [TimeArg(c.createdAt), UuidArg(c.id), UuidArg(a), IntArg(n)], rows)
      == Some(Take(Candidates(rows, Some(CursorKey(c)), Some(a)), n))
  {
    var args := [TimeArg(c.createdAt), UuidArg(c.id), UuidArg(a), IntArg(n)];
    var kept := Keep(rows, Some(CursorKey(c)), None);
    ThreeClauses(Before(1, 2), AuthorIs(3), NewestFirst(4), args, rows);
    TwoClauses(AuthorIs(3), NewestFirst(4), args, kept);
    KeepTwice(rows, CursorKey(c), a);
    BothBind(args, c, a, n);
    assert ExecClause(Before(1, 2), args, rows) == Some(kept);
    assert ExecClause(AuthorIs(3), args, kept) == Some(Keep(kept, None, Some(a)));
  }

  lemma RunsWithAgent(rows: seq<Row>, a: Uuid, n: nat)
    ensures Exec([Everything, AuthorIs(1), NewestFirst(2)], [UuidArg(a), IntArg(n)], rows)
      == Some(Take(Candidates(rows, None, Some(a)), n))
  {
    var args := [UuidArg(a), IntArg(n)];
    ThreeClauses(Everything, AuthorIs(1), NewestFirst(2), args, rows);
    TwoClauses(AuthorIs(1), NewestFirst(2), args, rows);
    assert AllUses([Everything, AuthorIs(1), NewestFirst(2)]) == {1, 2};
    assert ExecClause(AuthorIs(1), args, rows) == Some(Keep(rows, None, Some(a)));
  }

  lemma CursorBinds(args: seq<Arg>, c: Cursor, n: nat)
    requires args == [TimeArg(c.createdAt), UuidArg(c.id), IntArg(n)]
    ensures Binds([Before(1, 2), NewestFirst(3)], args)
    ensures ArgAt(args, 1) == Some(TimeArg(c.createdAt)) && ArgAt(args, 2) == Some(UuidArg(c.id))
    ensures ArgAt(args, 3) == Some(IntArg(n))
  {
    TwoClauses(Before(1, 2), NewestFirst(3), args, []);
    assert AllUses([Before(1, 2), NewestFirst(3)]) == {1, 2, 3};
  }

  lemma RunsWithCursor(rows: seq<Row>, c: Cursor, n: nat)
    ensures Exec([Before(1, 2), NewestFirst(3)], [TimeArg(c.createdAt), UuidArg(c.id), IntArg(n)], rows)
      == Some(Take(Candidates(rows, Some(CursorKey(c)), None), n))
  {
    var args := [TimeArg(c.createdAt), UuidArg(c.id), IntArg(n)];
    CursorBinds(args, c, n);
    TwoClauses(Before(1, 2), NewestFirst(3), args, rows);
  }

  lemma RunsPlain(rows: seq<Row>, n: nat)
    ensures Exec([Everything, NewestFirst(1)], [IntArg(n)], rows) == Some(Take(Candidates(rows, None, None), n))
  {
    TwoClauses(Everything, NewestFirst(1), [IntArg(n)], rows);
    KeepAll(rows);
    assert AllUses([Everything, NewestFirst(1)]) == {1};
    assert Binds([Everything, NewestFirst(1)], [IntArg(n)]);
    assert ExecClause(Everything, [IntArg(n)], rows) == Some(rows);
    assert ExecClause(NewestFirst(1), [IntArg(n)], rows) == Some(Take(Sort(rows), n));
  }

  /** The query builder of ListMessages. In all four cases the text mentions exactly the arguments
      appended, and running it on any rows returns the newest limit + 1 candidates. */
  method BuildQuery(cursor: Option<Cursor>, agentId: Option<Uuid>, limit: int)
    returns (query: seq<Clause>, args: seq<Arg>)
    requires limit >= 0
    ensures forall rows :: Exec(query, args, rows)
              == Some(Take(Candidates(rows, Position(cursor), agentId), limit + 1))
  {
    query, args := [], [];

    if cursor.Some? {
      query := query + [Before(1, 2)];
      args := args + [TimeArg(cursor.value.createdAt), UuidArg(cursor.value.id)];
    } else {
      query := query + [Everything];
    }

    if agentId.Some? {
      if cursor.Some? {
        query := query + [AuthorIs(3)];
        args := args + [UuidArg(agentId.value)];
      } else {
        query := query + [AuthorIs(1)];
        args := args + [UuidArg(agentId.value)];
      }
    }

    if agentId.Some? && cursor.Some? {
      query := query + [NewestFirst(4)];
      args := args + [IntArg(limit + 1)];
      assert query == [Before(1, 2), AuthorIs(3), NewestFirst(4)];
      assert args == [TimeArg(cursor.value.createdAt), UuidArg(cursor.value.id), UuidArg(agentId.value), IntArg(limit + 1)];
      forall rows { RunsWithBoth(rows, cursor.value, agentId.value, limit + 1); }
    } else if agentId.Some? {
      query := query + [NewestFirst(2)];
      args := args + [IntArg(limit + 1)];
      assert query == [Everything, AuthorIs(1), NewestFirst(2)];
      assert args == [UuidArg(agentId.value), IntArg(limit + 1)];
      forall rows { RunsWithAgent(rows, agentId.value, limit + 1); }
    } else if cursor.Some? {
      query := query + [NewestFirst(3)];
      args := args + [IntArg(limit + 1)];
      assert query == [Before(1, 2), NewestFirst(3)];
      assert args == [TimeArg(cursor.value.createdAt), UuidArg(cursor.value.id), IntArg(limit + 1)];
      forall rows { RunsWithCursor(rows, cursor.value, limit + 1); }
    } else {
      query := query + [NewestFirst(1)];
      args := args + [IntArg(limit + 1)];
      assert query == [Everything, NewestFirst(1)];
      assert args == [IntArg(limit + 1)];
      forall rows { RunsPlain(rows, limit + 1); }
    }
  }

  /** The row loop, the reslice and the next cursor, over the up to limit + 1 rows fetched. */
  method CollectPage(rows: seq<Row>, limit: int) returns (page: Page)
    requires limit >= 0
    ensures page == Page(Take(rows, limit), NextCursor(Take(rows, limit)), |rows| > limit)
  {
    var messages: seq<Row> := [];
    var i := 0;
    while i < |rows|
      invariant 0 <= i <= |rows|
      invariant messages == rows[..i]
    {
      messages := messages + [rows[i]];
      i := i + 1;
    }

    var hasMore := |messages| > limit;
    if hasMore {
      messages := messages[..limit];
    }
    assert messages == Take(rows, limit);

    var nextCursor: Option<Cursor> := None;
    if |messages| > 0 {
      var last := messages[|messages| - 1];
      nextCursor := Some(Cursor(last.message.createdAt, last.message.id));
    }
    page := Page(messages, nextCursor, hasMore);
  }

  // x was created after y, or at the same instant with the larger id
  ghost predicate Newer(x: Message, y: Message) {
    Instant(x.createdAt) > Instant(y.createdAt) || (Instant(x.createdAt) == Instant(y.createdAt) && x.id > y.id)
  }

  ghost predicate IsNewestPage(page: seq<Row>, rows: seq<Row>, cursor: Option<Cursor>, agent: Option<Uuid>, limit: nat) {
    && (forall i, j :: 0 <= i < j < |page| ==> Newer(page[i].message, page[j].message))
    && (forall x :: x in page ==> x in rows && Wanted(x, cursor, agent))
    && (forall x, i | x in rows && Wanted(x, cursor, agent) && x !in page && 0 <= i < |page| ::
          Newer(page[i].message, x.message))
    && |page| == Least(limit, |set x | x in rows && Wanted(x, cursor, agent)|)
  }

  lemma NewestOf(rows: seq<Row>, cursor: Option<Cursor>, agent: Option<Uuid>, limit: nat)
    requires IdsDistinct(rows)
    ensures IsNewestPage(PageOf(rows, cursor, agent, limit).messages, rows, cursor, agent, limit)
  {
    var page := PageOf(rows, cursor, agent, limit).messages;
    PageFills(rows, cursor, agent, limit);
    PageWithin(rows, cursor, agent, limit);
    forall i, j | 0 <= i < j < |page| ensures Newer(page[i].message, page[j].message) {
      assert Older(KeyOf(page[j]), KeyOf(page[i]));
    }
    forall x, i | x in rows && Wanted(x, cursor, agent) && x !in page && 0 <= i < |page|
      ensures Newer(page[i].message, x.message)
    {
      PageSplits(rows, cursor, agent, limit, x);
    }
  }

  /** ListMessages returns the page: up to limit rows, whether there were more, and the cursor of
      the last row returned. On tables that keep their keys the rows are newest first by created_at
      and then by id, all wanted, as many as there are up to limit, and none left out is newer. (A
      limit below zero makes the allocation of the result panic.) */
  method ListMessages(db: Db, cursor: Option<Cursor>, agentId: Option<Uuid>, limit: int) returns (result: Option<Page>)
    requires limit >= 0
    ensures result == Some(PageOf(StreamRows(db), cursor, agentId, limit))
    ensures DbOk(db) ==> IsNewestPage(result.value.messages, StreamRows(db), cursor, agentId, limit)
    ensures DbOk(db) ==> forall i, j :: 0 <= i < j < |result.value.messages| ==>
      var a, b := result.value.messages[i].message, result.value.messages[j].message;
      Instant(a.createdAt) > Instant(b.createdAt) || (Instant(a.createdAt) == Instant(b.createdAt) && a.id > b.id)
  {
    var query, args := BuildQuery(cursor, agentId, limit);
    var rows := Exec(query, args, StreamRows(db));
    if rows.None? {
      return None;
    }
    var page := CollectPage(rows.value, limit);
    assert Take(Take(Candidates(StreamRows(db), Position(cursor), agentId), limit + 1), limit)
        == Take(Candidates(StreamRows(db), Position(cursor), agentId), limit);
    if DbOk(db) {
      StreamMessages(db);
      NewestOf(StreamRows(db), cursor, agentId, limit);
    }
    return Some(page);
  }
}
