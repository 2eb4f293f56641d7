/** What a client of ListMessages gets that follows the cursors. */
module Walks {
  import opened Options
  import opened Cursors
  import opened Database
  import opened Messages

  /* ---------- a walk over a fixed table ---------- */

  lemma {:induction false} DescendingUnique(a: seq<Row>, b: seq<Row>)
    requires Descending(a) && Descending(b) && forall x :: x in a <==> x in b
    ensures a == b
  {
    assert b != [] ==> b[0] in a;
    if a != [] {
      assert a[0] in b && b != [];
      assert b[0] in a;
      assert a[0] == b[0];
      forall x ensures x in a[1..] <==> x in b[1..] {
        if x in a[1..] { assert x in a && x != a[0]; assert x in b; }
        if x in b[1..] { assert x in b && x != b[0]; assert x in a; }
      }
      DescendingUnique(a[1..], b[1..]);
    }
  }

  // A row is from the k-th on exactly when it is older than the one before
  lemma OlderAreRest(all: seq<Row>, k: nat, x: Row)
    requires Descending(all) && 0 < k <= |all|
    ensures x in all[k..] <==> x in all && Older(KeyOf(x), KeyOf(all[k - 1]))
  {
    if x in all {
      var i :| 0 <= i < |all| && all[i] == x;
      if i >= k { assert all[k..][i - k] == x; }
    }
    if x in all[k..] {
      var i :| 0 <= i < |all[k..]| && all[k..][i] == x;
      assert all[k + i] == x;
    }
  }

  // The page after k rows starts at the k-th candidate
  lemma AfterLast(rows: seq<Row>, before: Option<Key>, agent: Option<Uuid>, k: nat)
    requires IdsDistinct(rows) && 0 < k <= |Candidates(rows, before, agent)|
    ensures var all := Candidates(rows, before, agent);
      Candidates(rows, Some(KeyOf(all[k - 1])), agent) == all[k..]
  {
    var all := Candidates(rows, before, agent);
    var rest := Candidates(rows, Some(KeyOf(all[k - 1])), agent);
    CandidatesAre(rows, before, agent);
    CandidatesAre(rows, Some(KeyOf(all[k - 1])), agent);
    assert all[k - 1] in all;
    forall x ensures x in rest <==> x in all[k..] { OlderAreRest(all, k, x); }
    DescendingUnique(rest, all[k..]);
  }

  lemma NextPage(rows: seq<Row>, cursor: Option<Cursor>, agent: Option<Uuid>, limit: nat)
    requires IdsDistinct(rows) && limit > 0 && PageOf(rows, cursor, agent, limit).hasMore
    ensures
      var p, all := PageOf(rows, cursor, agent, limit), Candidates(rows, Position(cursor), agent);
      |all| > limit && p.messages == all[..limit] && Candidates(rows, Position(p.next), agent) == all[limit..]
  {
    AfterLast(rows, Position(cursor), agent, limit);
  }

  // Following next_cursor until has_more is false
  ghost function Walk(rows: seq<Row>, cursor: Option<Cursor>, agent: Option<Uuid>, limit: nat): seq<seq<Row>>
    requires IdsDistinct(rows) && limit > 0
    decreases |Candidates(rows, Position(cursor), agent)|
  {
    var p := PageOf(rows, cursor, agent, limit);
    if p.hasMore then
      NextPage(rows, cursor, agent, limit);
      [p.messages] + Walk(rows, p.next, agent, limit)
    else [p.messages]
  }

  function Flatten(pages: seq<seq<Row>>): seq<Row> {
    if pages == [] then [] else pages[0] + Flatten(pages[1..])
  }

  // k is the least number of pages of limit rows that hold n rows, and at least 1
  predicate PageCount(k: nat, n: nat, limit: nat) {
    k > 0 && n <= k * limit && (k > 1 ==> (k - 1) * limit < n)
  }

  lemma PageCountStep(k: nat, n: nat, limit: nat)
    requires PageCount(k, n, limit) && n > 0
    ensures PageCount(k + 1, n + limit, limit)
  {
    assert (k + 1) * limit == k * limit + limit;
    if k > 1 { assert k * limit == (k - 1) * limit + limit; }
  }

  lemma {:induction false} WalkFlattens(rows: seq<Row>, cursor: Option<Cursor>, agent: Option<Uuid>, limit: nat)
    requires IdsDistinct(rows) && limit > 0
    ensures Flatten(Walk(rows, cursor, agent, limit)) == Candidates(rows, Position(cursor), agent)
    ensures var pages := Walk(rows, cursor, agent, limit);
      forall i :: 0 <= i < |pages| - 1 ==> |pages[i]| == limit
    decreases |Candidates(rows, Position(cursor), agent)|
  {
    var p, all := PageOf(rows, cursor, agent, limit), Candidates(rows, Position(cursor), agent);
    var pages := Walk(rows, cursor, agent, limit);
    if p.hasMore {
      NextPage(rows, cursor, agent, limit);
      WalkFlattens(rows, p.next, agent, limit);
      var rest := Walk(rows, p.next, agent, limit);
      assert pages == [p.messages] + rest;
      assert pages[1..] == rest;
      assert all == all[..limit] + all[limit..];
    } else {
      assert pages[1..] == [];
    }
  }

  lemma WalkGoesOn(rows: seq<Row>, cursor: Option<Cursor>, agent: Option<Uuid>, limit: nat)
    requires IdsDistinct(rows) && limit > 0 && PageOf(rows, cursor, agent, limit).hasMore
    ensures |Walk(rows, cursor, agent, limit)| == 1 + |Walk(rows, PageOf(rows, cursor, agent, limit).next, agent, limit)|
  {
  }

  lemma {:induction false} WalkCounts(rows: seq<Row>, cursor: Option<Cursor>, agent: Option<Uuid>, limit: nat)
    requires IdsDistinct(rows) && limit > 0
    ensures PageCount(|Walk(rows, cursor, agent, limit)|, |Candidates(rows, Position(cursor), agent)|, limit)
    decreases |Candidates(rows, Position(cursor), agent)|
  {
    var p, n := PageOf(rows, cursor, agent, limit), |Candidates(rows, Position(cursor), agent)|;
    if p.hasMore {
      NextPage(rows, cursor, agent, limit);
      WalkCounts(rows, p.next, agent, limit);
      WalkGoesOn(rows, cursor, agent, limit);
      PageCountStep(|Walk(rows, p.next, agent, limit)|, n - limit, limit);
    }
  }

  /** On a fixed table, following the cursor until has_more is false returns every matching message
      exactly once, newest first, in pages of exactly limit rows except the last, and in as
      few pages as that allows (one if nothing matches). */
  lemma FixedTableWalk(rows: seq<Row>, agent: Option<Uuid>, limit: nat)
    requires IdsDistinct(rows) && limit > 0
    ensures
      var pages := Walk(rows, None, agent, limit);
      && Descending(Flatten(pages))
      && (forall x :: x in Flatten(pages) <==> x in rows && Selected(x, None, agent))
      && (forall i :: 0 <= i < |pages| - 1 ==> |pages[i]| == limit)
      && PageCount(|pages|, |Flatten(pages)|, limit)
  {
    WalkFlattens(rows, None, agent, limit);
    WalkCounts(rows, None, agent, limit);
    CandidatesAre(rows, None, agent);
  }

  /* ---------- a walk whose pages come from different moments ---------- */

  // One page request: the rows of the moment it was read at, and what came back
  datatype Fetch = Fetch(rows: seq<Row>, cursor: Option<Cursor>, limit: nat, messages: seq<Row>)

  ghost predicate FetchOk(f: Fetch, agent: Option<Uuid>) {
    IdsDistinct(f.rows) && f.limit > 0 && f.messages == PageOf(f.rows, f.cursor, agent, f.limit).messages
  }

  // The second request sends the cursor the first one returned
  ghost predicate Follows(a: Fetch, b: Fetch) {
    a.messages != [] && b.cursor.Some? && CursorKey(b.cursor.value) == EndKey(a)
  }

  ghost function EndKey(f: Fetch): Key
    requires f.messages != []
  {
    KeyOf(f.messages[|f.messages| - 1])
  }

  ghost predicate WalkOk(fs: seq<Fetch>, agent: Option<Uuid>) {
    && (fs != [] ==> fs[0].cursor.None?)
    && (forall i :: 0 <= i < |fs| ==> FetchOk(fs[i], agent))
    && (forall i, j :: 0 <= i && j == i + 1 && j < |fs| ==> Follows(fs[i], fs[j]))
  }

  ghost function Returned(fs: seq<Fetch>): seq<Row> {
    if fs == [] then [] else Returned(fs[..|fs| - 1]) + fs[|fs| - 1].messages
  }

  ghost predicate HadMore(f: Fetch, agent: Option<Uuid>) {
    PageOf(f.rows, f.cursor, agent, f.limit).hasMore
  }

  lemma PageBelow(f: Fetch, agent: Option<Uuid>, j: nat)
    requires FetchOk(f, agent)
    ensures Descending(f.messages)
    ensures j < |f.messages| ==>
      (f.cursor.Some? ==> Older(KeyOf(f.messages[j]), CursorKey(f.cursor.value))) &&
      (agent.Some? ==> f.messages[j].message.agent == agent.value)
  {
    PageWithin(f.rows, f.cursor, agent, f.limit);
    if j < |f.messages| { assert f.messages[j] in f.messages; }
  }

  lemma PageCovers(f: Fetch, agent: Option<Uuid>, r: Row)
    requires FetchOk(f, agent) && r in f.rows && Selected(r, Position(f.cursor), agent)
    ensures r in f.messages || (HadMore(f, agent) && f.messages != [] && Older(KeyOf(r), EndKey(f)))
  {
    PageSplits(f.rows, f.cursor, agent, f.limit, r);
  }

  lemma DescendingAppend(a: seq<Row>, b: seq<Row>, k: Key)
    requires Descending(a) && Descending(b)
    requires a != [] ==> KeyOf(a[|a| - 1]) == k && forall j :: 0 <= j < |b| ==> Older(KeyOf(b[j]), k)
    ensures Descending(a + b)
  {
  }

  // So far: strictly descending, ending at the last page's last row
  lemma {:induction false} ReturnedDescends(fs: seq<Fetch>, agent: Option<Uuid>)
    requires WalkOk(fs, agent)
    ensures Descending(Returned(fs))
    ensures fs != [] && fs[|fs| - 1].messages != [] ==>
      Returned(fs) != [] && KeyOf(Returned(fs)[|Returned(fs)| - 1]) == EndKey(fs[|fs| - 1])
  {
    if fs != [] {
      var n := |fs| - 1;
      ReturnedDescends(fs[..n], agent);
      PageBelow(fs[n], agent, 0);
      if n == 0 {
        assert Returned(fs) == fs[0].messages;
      } else {
        assert Follows(fs[n - 1], fs[n]);
        forall j | 0 <= j < |fs[n].messages| ensures Older(KeyOf(fs[n].messages[j]), EndKey(fs[n - 1])) {
          PageBelow(fs[n], agent, j);
        }
        DescendingAppend(Returned(fs[..n]), fs[n].messages, EndKey(fs[n - 1]));
      }
    }
  }

  ghost predicate Holds(rows: seq<Row>, m: Message) {
    exists r :: r in rows && r.message == m
  }

  // m matches the filter and is in the table at every moment a page was read
  ghost predicate AlwaysThere(fs: seq<Fetch>, agent: Option<Uuid>, m: Message) {
    (agent.Some? ==> m.agent == agent.value) && (forall i :: 0 <= i < |fs| ==> Holds(fs[i].rows, m))
  }

  // A matching message present at every moment is returned or still ahead
  lemma {:induction false} NothingSkipped(fs: seq<Fetch>, agent: Option<Uuid>, m: Message)
    requires WalkOk(fs, agent) && fs != [] && AlwaysThere(fs, agent, m)
    ensures
      var last := fs[|fs| - 1];
      Holds(Returned(fs), m) ||
      (HadMore(last, agent) && last.messages != [] && Older(CursorKey(Cursor(m.createdAt, m.id)), EndKey(last)))
  {
    var n := |fs| - 1;
    var last := fs[n];
    var r :| r in last.rows && r.message == m;
    if n > 0 {
      NothingSkipped(fs[..n], agent, m);
      assert Follows(fs[n - 1], last);
    }
    if n > 0 && Holds(Returned(fs[..n]), m) {
      var x :| x in Returned(fs[..n]) && x.message == m;
      assert x in Returned(fs);
    } else {
      assert Selected(r, Position(last.cursor), agent);
      PageCovers(last, agent, r);
      if r in last.messages { assert r in Returned(fs); }
    }
  }

  ghost predicate OnceIn(rows: seq<Row>, m: Message) {
    exists j :: 0 <= j < |rows| && rows[j].message == m &&
      forall k :: 0 <= k < |rows| && rows[k].message == m ==> k == j
  }

  /** A walk over changing tables. Whatever is inserted between the requests, and whatever moments
      the pages were read at: the rows returned are strictly descending in (created_at, id), so
      none repeats; and if the last page had no more rows, every matching message that was there
      at every moment used is returned exactly once. */
  lemma ChangingTableWalk(fs: seq<Fetch>, agent: Option<Uuid>)
    requires WalkOk(fs, agent) && fs != []
    ensures Descending(Returned(fs))
    ensures !HadMore(fs[|fs| - 1], agent) ==>
      forall m: Message :: AlwaysThere(fs, agent, m) ==> OnceIn(Returned(fs), m)
  {
    ReturnedDescends(fs, agent);
    var rows := Returned(fs);
    forall m: Message | !HadMore(fs[|fs| - 1], agent) && AlwaysThere(fs, agent, m)
      ensures OnceIn(rows, m)
    {
      NothingSkipped(fs, agent, m);
      OnceInDescending(rows, m);
    }
  }

  lemma OnceInDescending(rows: seq<Row>, m: Message)
    requires Descending(rows) && Holds(rows, m)
    ensures OnceIn(rows, m)
  {
    var r :| r in rows && r.message == m;
    var j :| 0 <= j < |rows| && rows[j] == r;
    forall k | 0 <= k < |rows| && rows[k].message == m ensures k == j {
      assert KeyOf(rows[k]) == KeyOf(rows[j]);
    }
  }
}
