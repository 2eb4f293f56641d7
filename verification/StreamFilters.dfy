/** What the cache does not keep apart: internal/stream/cache.go:32 looks a page up by cursor and
    limit alone, and internal/stream/cache.go:42 reports no more rows on every hit. */
module StreamFilters {
  import opened Options
  import opened Cursors
  import opened Database
  import opened Messages
  import opened Walks
  import opened Stream
  import opened StreamSafety
  import opened StreamWalks
  import Rfc3339

  const UP := Outage(false, false, false)

  lemma PageIsStorable(db: Db, agent: Option<Uuid>, limit: nat)
    requires Shown(db)
    ensures var page := PageOf(StreamRows(db), None, agent, limit).messages;
      Storable(page) && CachedCopy(page) == page
  {
    var page := PageOf(StreamRows(db), None, agent, limit).messages;
    forall i | 0 <= i < |page| ensures Clean(page[i]) && Rfc3339Marshals(page[i]) {
      PageIsClean(db, None, agent, limit, i);
      CleanCopy(page[i]);
    }
    CopyIsSame(page);
  }

  /** Two callers ask for the newest page within the cache's lifetime, each with its own agent
      filter. The second gets the first one's rows, and has_more false, whatever the filters and
      however many rows are left. */
  method SecondCaller(db: Db, rdb: Redis, a: Option<Uuid>, b: Option<Uuid>, limit: int, now: int, later: int,
                      lenient: Lenient)
    returns (first: Answer, second: Answer)
    requires rdb.pages == map[] && Shown(db) && now <= later < now + CACHE_TTL
    modifies rdb
    ensures first.Answer? && first.messages == PageOf(StreamRows(db), None, a, Normal(limit)).messages
    ensures second == first.(hasMore := false)
  {
    first := GetPage(db, rdb, "", limit, a, now, UP, lenient);
    PageIsStorable(db, a, Normal(limit));
    second := GetPage(db, rdb, "", limit, b, later, UP, lenient);
  }

  // The rows of one descending list that are newer than one of its rows come before it
  lemma {:induction false} NewerComeFirst(page: seq<Row>, j: nat, newer: seq<Row>)
    requires Descending(page) && Descending(newer) && j < |page|
    requires forall k :: 0 <= k < |newer| ==> newer[k] in page && Older(KeyOf(page[j]), KeyOf(newer[k]))
    ensures |newer| <= j
  {
    if newer != [] {
      var n := |newer| - 1;
      var m :| 0 <= m < |page| && page[m] == newer[n];
      assert m < j;
      NewerComeFirst(page, m, newer[..n]);
    }
  }

  // A row of one page that the other filter wants too is on the other page
  lemma WantedIsShared(rows: seq<Row>, cursor: Option<Cursor>, a: Option<Uuid>, b: Option<Uuid>, limit: nat, x: Row)
    requires IdsDistinct(rows) && x in PageOf(rows, cursor, a, limit).messages && Matches(x.message, b)
    requires forall y :: y in PageOf(rows, cursor, b, limit).messages ==> Matches(y.message, a)
    ensures x in PageOf(rows, cursor, b, limit).messages
  {
    var p, q := PageOf(rows, cursor, a, limit).messages, PageOf(rows, cursor, b, limit).messages;
    PageWithin(rows, cursor, a, limit);
    PageWithin(rows, cursor, b, limit);
    if x !in q {
      PageSplits(rows, cursor, b, limit, x);
      var j :| 0 <= j < |p| && p[j] == x;
      forall k | 0 <= k < |q| ensures q[k] in p && Older(KeyOf(p[j]), KeyOf(q[k])) {
        assert q[k] in q;
        PageSplits(rows, cursor, a, limit, q[k]);
      }
      NewerComeFirst(p, j, q);
    }
  }

  /** So the rows a hit returns are the caller's own only by luck. For every cursor and limit, the
      page of one filter is the page of another exactly when each filter wants every row of the
      other's page. */
  lemma SharedPageIsOwn(rows: seq<Row>, cursor: Option<Cursor>, a: Option<Uuid>, b: Option<Uuid>, limit: nat)
    requires IdsDistinct(rows)
    ensures
      var p, q := PageOf(rows, cursor, a, limit).messages, PageOf(rows, cursor, b, limit).messages;
      p == q <==> (forall x :: x in p ==> Matches(x.message, b)) && (forall x :: x in q ==> Matches(x.message, a))
  {
    var p, q := PageOf(rows, cursor, a, limit).messages, PageOf(rows, cursor, b, limit).messages;
    PageWithin(rows, cursor, a, limit);
    PageWithin(rows, cursor, b, limit);
    if (forall x :: x in p ==> Matches(x.message, b)) && (forall x :: x in q ==> Matches(x.message, a)) {
      forall x ensures x in p <==> x in q {
        if x in p { WantedIsShared(rows, cursor, a, b, limit, x); }
        if x in q { WantedIsShared(rows, cursor, b, a, limit, x); }
      }
      DescendingUnique(p, q);
    }
  }

  /* ---------- what a caller can know beforehand ---------- */

  // One message by one agent
  function Lone(author: Uuid): Db {
    Db([Agent(author, "a", "A", "", "", true)],
       [Message(0, author, "", None, Rfc3339.Time(2024, 1, 1, 0, 0, 0, 0, 0))], [], [])
  }

  lemma LonePage(author: Uuid, agent: Option<Uuid>, limit: nat)
    requires limit > 0
    ensures DbOk(Lone(author)) && |StreamRows(Lone(author))| == 1
    ensures StreamRows(Lone(author))[0] in PageOf(StreamRows(Lone(author)), None, agent, limit).messages <==>
            (agent.Some? ==> agent.value == author)
  {
    var db := Lone(author);
    assert HasAgent(db, author) by { assert db.agents[0].id == author; }
    RowsOf(db);
    OneRowPage(StreamRows(db), agent, limit);
  }

  lemma OneRowPage(rows: seq<Row>, agent: Option<Uuid>, limit: nat)
    requires |rows| == 1 && limit > 0
    ensures rows[0] in PageOf(rows, None, agent, limit).messages <==> Matches(rows[0].message, agent)
  {
    var p := PageOf(rows, None, agent, limit);
    PageWithin(rows, None, agent, limit);
    assert p.hasMore ==> p.messages[0] in p.messages;
    if Matches(rows[0].message, agent) { PageSplits(rows, None, agent, limit, rows[0]); }
  }

  // An author exactly one of two different filters wants
  function Telling(a: Option<Uuid>, b: Option<Uuid>): Uuid {
    if a.Some? && b.Some? then a.value
    else
      var some := if a.Some? then a else b;
      if some.Some? && some.value == 0 then 1 else 0
  }

  /** Two filters can share the newest page, whatever the tables hold, only if they are the same. */
  lemma SafeToShareIff(a: Option<Uuid>, b: Option<Uuid>, limit: nat)
    requires limit > 0
    ensures a == b <==>
      forall db :: DbOk(db) ==>
        PageOf(StreamRows(db), None, a, limit).messages == PageOf(StreamRows(db), None, b, limit).messages
  {
    var db := Lone(Telling(a, b));
    LonePage(Telling(a, b), a, limit);
    LonePage(Telling(a, b), b, limit);
    var p, q := PageOf(StreamRows(db), None, a, limit).messages, PageOf(StreamRows(db), None, b, limit).messages;
    assert a != b ==> p != q;
  }
}
