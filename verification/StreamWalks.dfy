/** Freshness and page walks through the cache, over every run of concurrent calls that use one
    agent filter. The key under which a page is cached does not name the filter (StreamFilters). */
module StreamWalks {
  import opened Options
  import opened Cursors
  import opened Database
  import opened Messages
  import opened Walks
  import opened Stream
  import opened StreamSafety

  // The run of the real services
  ghost function RunReal(es: seq<Event>, agent: Option<Uuid>, lenient: Lenient): State {
    Run(es, agent, Real(lenient))
  }

  /* ---------- the cursor a response returns ---------- */

  // Empty for an empty page; otherwise it names the position of the last row
  ghost predicate NextOk(r: Response, svc: Services) {
    && (r.messages == [] <==> r.next == "")
    && (r.messages != [] ==>
          var c := CursorIn(svc.decode(r.next));
          c.Some? && SamePosition(c.value, CursorOf(r.messages[|r.messages| - 1])))
  }

  lemma NextDecodes(s: State, r: Response, agent: Option<Uuid>, svc: Services)
    requires EncodeLaw(svc) && ListLaw(svc) && HistoryOk(s) && ResponseOk(s, r, agent, svc)
    ensures NextOk(r, svc)
  {
    var db := s.history[r.moment];
    assert PageIsFit(svc.list(db, CursorIn(svc.decode(r.text)), agent, r.limit), db);
    if r.messages != [] {
      assert Clean(r.messages[|r.messages| - 1]);
      assert EncodesWell(svc, CursorOf(r.messages[|r.messages| - 1]));
    }
  }

  /* ---------- freshness ---------- */

  /** Cache freshness. However many calls overlap and however their fills overwrite each other,
      every hit returns the page that ListMessages produced for the same cursor and limit in
      some state of the tables and that was stored less than 30 s before, and the cursor it
      returns decodes to the position of its last row. */
  lemma HitsAreFresh(es: seq<Event>, agent: Option<Uuid>, lenient: Lenient, i: nat)
    requires i < |RunReal(es, agent, lenient).log| && RunReal(es, agent, lenient).log[i].hit
    ensures
      var s, svc := RunReal(es, agent, lenient), Real(lenient);
      var r := s.log[i];
      && FreshHit(s, r)
      && r.text == TextIn(r.raw, svc.decode(r.raw))
      && ReadAt(s, r.text, r.limit, r.messages, r.moment, agent, svc)
      && NextOk(r, svc)
  {
    RealIsLawful(lenient);
    Reachable(es, agent, Real(lenient));
    var s := RunReal(es, agent, lenient);
    assert ResponseOk(s, s.log[i], agent, Real(lenient));
    NextDecodes(s, s.log[i], agent, Real(lenient));
  }

  lemma RealReachable(es: seq<Event>, agent: Option<Uuid>, lenient: Lenient)
    ensures HistoryOk(RunReal(es, agent, lenient)) && LogOk(RunReal(es, agent, lenient), agent, Real(lenient))
  {
    RealIsLawful(lenient);
    Reachable(es, agent, Real(lenient));
  }

  /** Every response, hit or miss, keeps the limit its caller asked for, or 20 where that is not
      between 1 and 100: it holds as many wanted rows of the state it was read from as the limit lets it,
      newest first. */
  lemma LimitsAreKept(es: seq<Event>, agent: Option<Uuid>, lenient: Lenient, i: nat)
    requires i < |RunReal(es, agent, lenient).log|
    ensures
      var s := RunReal(es, agent, lenient);
      var r := s.log[i];
      && r.limit == (if 1 <= r.asked <= 100 then r.asked else 20) && r.moment < |s.history|
      && IsNewestPage(r.messages, StreamRows(s.history[r.moment]),
                      CursorIn(Real(lenient).decode(r.text)), agent, r.limit)
  {
    RealReachable(es, agent, lenient);
    LimitKept(RunReal(es, agent, lenient), RunReal(es, agent, lenient).log[i], agent, Real(lenient));
  }

  lemma LimitKept(s: State, r: Response, agent: Option<Uuid>, svc: Services)
    requires svc.list == ListOf && HistoryOk(s) && ResponseOk(s, r, agent, svc)
    ensures IsNewestPage(r.messages, StreamRows(s.history[r.moment]), CursorIn(svc.decode(r.text)), agent, r.limit)
  {
    var db := s.history[r.moment];
    RowsOf(db);
    NewestOf(StreamRows(db), CursorIn(svc.decode(r.text)), agent, r.limit);
  }

  /* ---------- walks ---------- */

  // walk picks responses, each of which sent the cursor the one before it returned
  ghost predicate IsWalk(log: seq<Response>, walk: seq<nat>) {
    && walk != [] && (forall i :: 0 <= i < |walk| ==> walk[i] < |log|)
    && log[walk[0]].raw == "" && log[walk[|walk| - 1]].next == ""
    && (forall i, j :: 0 <= i && j == i + 1 && j < |walk| ==> Continues(log[walk[i]], log[walk[j]]))
  }

  ghost predicate Continues(a: Response, b: Response) {
    a.next != "" && b.raw == a.next
  }

  ghost function Responses(log: seq<Response>, walk: seq<nat>): (rs: seq<Response>)
    requires forall i :: 0 <= i < |walk| ==> walk[i] < |log|
    ensures |rs| == |walk| && forall i :: 0 <= i < |walk| ==> rs[i] == log[walk[i]]
  {
    if walk == [] then [] else Responses(log, walk[..|walk| - 1]) + [log[walk[|walk| - 1]]]
  }

  ghost function RowsIn(rs: seq<Response>): seq<Row> {
    if rs == [] then [] else RowsIn(rs[..|rs| - 1]) + rs[|rs| - 1].messages
  }

  ghost predicate AllOk(s: State, rs: seq<Response>, agent: Option<Uuid>, svc: Services) {
    HistoryOk(s) && forall i :: 0 <= i < |rs| ==> ResponseOk(s, rs[i], agent, svc)
  }

  ghost function FetchOf(s: State, r: Response, svc: Services): Fetch
    requires r.moment < |s.history|
  {
    Fetch(StreamRows(s.history[r.moment]), CursorIn(svc.decode(r.text)), r.limit, r.messages)
  }

  lemma FetchIsOk(s: State, r: Response, agent: Option<Uuid>, svc: Services)
    requires svc.list == ListOf && HistoryOk(s) && ResponseOk(s, r, agent, svc)
    ensures FetchOk(FetchOf(s, r, svc), agent)
    ensures r.messages == [] ==> !HadMore(FetchOf(s, r, svc), agent)
  {
    var db, cursor := s.history[r.moment], CursorIn(svc.decode(r.text));
    RowsOf(db);
    assert r.messages == ListOf(db, cursor, agent, r.limit).messages;
    PageWithin(StreamRows(db), cursor, agent, r.limit);
  }

  lemma FetchFollows(s: State, a: Response, b: Response, agent: Option<Uuid>, svc: Services)
    requires EncodeLaw(svc) && ListLaw(svc) && HistoryOk(s)
    requires ResponseOk(s, a, agent, svc) && ResponseOk(s, b, agent, svc) && Continues(a, b)
    ensures Follows(FetchOf(s, a, svc), FetchOf(s, b, svc))
  {
    NextDecodes(s, a, agent, svc);
    NextFollows(s, a, b, svc);
  }

  lemma NextFollows(s: State, a: Response, b: Response, svc: Services)
    requires NextOk(a, svc) && Continues(a, b) && svc.decode("") == Ok(None) && b.text == TextIn(b.raw, svc.decode(b.raw))
    requires a.moment < |s.history| && b.moment < |s.history|
    ensures Follows(FetchOf(s, a, svc), FetchOf(s, b, svc))
  {
    NextIsSent(a, b, svc);
  }

  // The cursor b sends is the position of the last row a returned
  lemma NextIsSent(a: Response, b: Response, svc: Services)
    requires NextOk(a, svc) && Continues(a, b) && svc.decode("") == Ok(None) && b.text == TextIn(b.raw, svc.decode(b.raw))
    ensures a.messages != [] && CursorIn(svc.decode(b.text)).Some?
    ensures CursorKey(CursorIn(svc.decode(b.text)).value) == KeyOf(a.messages[|a.messages| - 1])
  {
    TextIsUsable(b.raw, svc);
  }

  ghost function Fetches(s: State, rs: seq<Response>, svc: Services): (fs: seq<Fetch>)
    requires forall i :: 0 <= i < |rs| ==> rs[i].moment < |s.history|
    ensures |fs| == |rs| && forall i :: 0 <= i < |rs| ==> fs[i] == FetchOf(s, rs[i], svc)
  {
    if rs == [] then [] else Fetches(s, rs[..|rs| - 1], svc) + [FetchOf(s, rs[|rs| - 1], svc)]
  }

  lemma {:induction false} RowsReturned(s: State, rs: seq<Response>, svc: Services)
    requires forall i :: 0 <= i < |rs| ==> rs[i].moment < |s.history|
    ensures RowsIn(rs) == Returned(Fetches(s, rs, svc))
  {
    if rs != [] {
      var n := |rs| - 1;
      RowsReturned(s, rs[..n], svc);
      assert Fetches(s, rs, svc)[..n] == Fetches(s, rs[..n], svc);
    }
  }

  lemma ResponseRowsExist(s: State, r: Response, agent: Option<Uuid>, svc: Services)
    requires ListLaw(svc) && HistoryOk(s) && ResponseOk(s, r, agent, svc)
    ensures forall i :: 0 <= i < |r.messages| ==> r.messages[i].message in Current(s).messages
  {
    var db := s.history[r.moment];
    assert PageIsFit(svc.list(db, CursorIn(svc.decode(r.text)), agent, r.limit), db);
    assert Grows(db, Current(s));
  }

  // Every row returned is a message of the current tables
  lemma {:induction false} RowsExist(s: State, rs: seq<Response>, agent: Option<Uuid>, svc: Services)
    requires ListLaw(svc) && AllOk(s, rs, agent, svc)
    ensures forall i :: 0 <= i < |RowsIn(rs)| ==> RowsIn(rs)[i].message in Current(s).messages
  {
    if rs != [] {
      RowsExist(s, rs[..|rs| - 1], agent, svc);
      ResponseRowsExist(s, rs[|rs| - 1], agent, svc);
    }
  }

  // rs starts at the empty cursor, ends at one, and follows the cursors in between
  ghost predicate Chained(rs: seq<Response>) {
    && rs != [] && rs[0].raw == "" && rs[|rs| - 1].next == ""
    && (forall i, j :: 0 <= i && j == i + 1 && j < |rs| ==> Continues(rs[i], rs[j]))
  }

  lemma FetchesAreWalk(s: State, rs: seq<Response>, agent: Option<Uuid>, svc: Services)
    requires svc.list == ListOf && EncodeLaw(svc) && ListLaw(svc)
    requires AllOk(s, rs, agent, svc) && Chained(rs)
    ensures WalkOk(Fetches(s, rs, svc), agent)
  {
    var fs := Fetches(s, rs, svc);
    forall i | 0 <= i < |fs| ensures FetchOk(fs[i], agent) { FetchIsOk(s, rs[i], agent, svc); }
    forall i, j | 0 <= i && j == i + 1 && j < |fs| ensures Follows(fs[i], fs[j]) {
      FetchFollows(s, rs[i], rs[j], agent, svc);
    }
    TextIsUsable(rs[0].raw, svc);
  }

  lemma HoldsRow(db: Db, m: Message)
    requires DbOk(db) && m in db.messages
    ensures Holds(StreamRows(db), m)
  {
    RowsOf(db);
    var j :| 0 <= j < |db.messages| && db.messages[j] == m;
    assert StreamRows(db)[j] in StreamRows(db);
  }

  lemma PresentThroughout(s: State, rs: seq<Response>, agent: Option<Uuid>, svc: Services, oldest: nat, m: Message)
    requires AllOk(s, rs, agent, svc) && oldest < |s.history| && m in s.history[oldest].messages
    requires agent.Some? ==> m.agent == agent.value
    requires forall i :: 0 <= i < |rs| ==> oldest <= rs[i].moment
    ensures AlwaysThere(Fetches(s, rs, svc), agent, m)
  {
    forall i | 0 <= i < |rs| ensures Holds(Fetches(s, rs, svc)[i].rows, m) {
      assert ResponseOk(s, rs[i], agent, svc);
      var db := s.history[rs[i].moment];
      assert Grows(s.history[oldest], db);
      HoldsRow(db, m);
    }
  }

  lemma OneRowPerId(db: Db, rows: seq<Row>)
    requires DbOk(db) && Descending(rows)
    requires forall i :: 0 <= i < |rows| ==> rows[i].message in db.messages
    ensures IdsDistinct(rows)
  {
    forall i, j | 0 <= i < j < |rows| ensures rows[i].message.id != rows[j].message.id {
      assert Older(KeyOf(rows[j]), KeyOf(rows[i]));
      assert rows[i].message != rows[j].message;
    }
  }

  ghost predicate Matches(m: Message, agent: Option<Uuid>) {
    agent.Some? ==> m.agent == agent.value
  }

  // Newest first, no message twice, and every matching message of db exactly once
  ghost predicate ShowsOnce(rows: seq<Row>, db: Db, agent: Option<Uuid>) {
    && Descending(rows) && IdsDistinct(rows)
    && (forall m :: m in db.messages && Matches(m, agent) ==> OnceIn(rows, m))
  }

  // rs is a walk from the first page to the last, over pages read at moment oldest or later
  ghost predicate CompleteWalk(s: State, rs: seq<Response>, agent: Option<Uuid>, svc: Services, oldest: nat) {
    && AllOk(s, rs, agent, svc) && Chained(rs)
    && oldest < |s.history| && (forall i :: 0 <= i < |rs| ==> oldest <= rs[i].moment)
  }

  // The pages of the walk are fetches whose last one left nothing out
  lemma WalkFetches(s: State, rs: seq<Response>, agent: Option<Uuid>, svc: Services, oldest: nat)
    requires svc.list == ListOf && EncodeLaw(svc) && ListLaw(svc)
    requires CompleteWalk(s, rs, agent, svc, oldest)
    ensures WalkOk(Fetches(s, rs, svc), agent) && RowsIn(rs) == Returned(Fetches(s, rs, svc))
    ensures !HadMore(Fetches(s, rs, svc)[|rs| - 1], agent)
  {
    var last := rs[|rs| - 1];
    FetchesAreWalk(s, rs, agent, svc);
    RowsReturned(s, rs, svc);
    NextDecodes(s, last, agent, svc);
    FetchIsOk(s, last, agent, svc);
  }

  lemma WalkFrom(s: State, rs: seq<Response>, agent: Option<Uuid>, svc: Services, oldest: nat)
    requires svc.list == ListOf && EncodeLaw(svc) && ListLaw(svc)
    requires CompleteWalk(s, rs, agent, svc, oldest)
    ensures ShowsOnce(RowsIn(rs), s.history[oldest], agent)
  {
    WalkFetches(s, rs, agent, svc, oldest);
    ChangingTableWalk(Fetches(s, rs, svc), agent);
    RowsExist(s, rs, agent, svc);
    OneRowPerId(Current(s), RowsIn(rs));
    forall m | m in s.history[oldest].messages && Matches(m, agent) ensures OnceIn(RowsIn(rs), m) {
      PresentThroughout(s, rs, agent, svc, oldest, m);
    }
  }

  lemma WalkIsChained(log: seq<Response>, walk: seq<nat>, oldest: nat)
    requires IsWalk(log, walk) && forall i :: 0 <= i < |walk| ==> oldest <= log[walk[i]].moment
    ensures Chained(Responses(log, walk)) && forall i :: 0 <= i < |walk| ==> oldest <= Responses(log, walk)[i].moment
  {
    var rs := Responses(log, walk);
    forall i, j | 0 <= i && j == i + 1 && j < |rs| ensures Continues(rs[i], rs[j]) {
      assert Continues(log[walk[i]], log[walk[j]]);
    }
  }

  lemma WalkResponses(s: State, walk: seq<nat>, agent: Option<Uuid>, svc: Services)
    requires HistoryOk(s) && LogOk(s, agent, svc) && forall i :: 0 <= i < |walk| ==> walk[i] < |s.log|
    ensures AllOk(s, Responses(s.log, walk), agent, svc)
  {
    var rs := Responses(s.log, walk);
    forall i | 0 <= i < |rs| ensures ResponseOk(s, rs[i], agent, svc) {
      assert ResponseOk(s, s.log[walk[i]], agent, svc);
    }
  }

  lemma WalkIsComplete(s: State, walk: seq<nat>, agent: Option<Uuid>, svc: Services, oldest: nat)
    requires HistoryOk(s) && LogOk(s, agent, svc) && IsWalk(s.log, walk) && oldest < |s.history|
    requires forall i :: 0 <= i < |walk| ==> oldest <= s.log[walk[i]].moment
    ensures CompleteWalk(s, Responses(s.log, walk), agent, svc, oldest)
  {
    WalkIsChained(s.log, walk, oldest);
    WalkResponses(s, walk, agent, svc);
  }

  lemma WalkShows(s: State, walk: seq<nat>, agent: Option<Uuid>, svc: Services, oldest: nat)
    requires svc.list == ListOf && EncodeLaw(svc) && ListLaw(svc)
    requires HistoryOk(s) && LogOk(s, agent, svc) && IsWalk(s.log, walk) && oldest < |s.history|
    requires forall i :: 0 <= i < |walk| ==> oldest <= s.log[walk[i]].moment
    ensures ShowsOnce(RowsIn(Responses(s.log, walk)), s.history[oldest], agent)
  {
    WalkIsComplete(s, walk, agent, svc, oldest);
    WalkFrom(s, Responses(s.log, walk), agent, svc, oldest);
  }

  /** The cached page walk. Follow next_cursor from the empty cursor until it is empty, through any
      mix of hits and misses, with other calls, fills, expiries and inserts in between, and any
      limits: the rows returned are strictly descending in (created_at, id), no message comes
      twice, and every matching message that was in the tables when the oldest page used was
      read comes exactly once. */
  lemma CachedWalk(es: seq<Event>, agent: Option<Uuid>, lenient: Lenient, walk: seq<nat>, oldest: nat)
    requires
      var s := RunReal(es, agent, lenient);
      && IsWalk(s.log, walk) && oldest < |s.history|
      && (forall i :: 0 <= i < |walk| ==> oldest <= s.log[walk[i]].moment)
    ensures
      var s := RunReal(es, agent, lenient);
      ShowsOnce(RowsIn(Responses(s.log, walk)), s.history[oldest], agent)
  {
    RealReachable(es, agent, lenient);
    RealIsLawful(lenient);
    WalkShows(RunReal(es, agent, lenient), walk, agent, Real(lenient), oldest);
  }
}
