/** The guarantees of the cached stream are not vacuous: a walk that starts with a hit. */
module StreamWitness {
  import opened Options
  import opened Rfc3339
  import opened Cursors
  import opened Database
  import opened Messages
  import opened Walks
  import opened Stream
  import opened StreamSafety
  import opened StreamWalks

  const AUTHOR := Agent(1, "a", "A", "", "", true)

  // One message, posted at the given time
  function Posted(t: Time): Db {
    Db([AUTHOR], [Message(7, 1, "hello", None, t)], [], [])
  }

  predicate Presentable(t: Time) {
    Valid(t) && Encodable(t)
  }

  lemma PostedIsShown(t: Time)
    requires Presentable(t)
    ensures Shown(Posted(t))
  {
    assert HasAgent(Posted(t), 1) by { assert Posted(t).agents[0].id == 1; }
  }

  // The newest page of one row holds it, and the page after it holds nothing
  lemma OneRowPages(rows: seq<Row>, c: Cursor, limit: nat)
    requires |rows| == 1 && limit > 0 && SamePosition(c, CursorOf(rows[0]))
    ensures PageOf(rows, None, None, limit).messages == rows
    ensures PageOf(rows, Some(c), None, limit).messages == []
  {
    var first, second := PageOf(rows, None, None, limit).messages, PageOf(rows, Some(c), None, limit).messages;
    PageWithin(rows, None, None, limit);
    PageWithin(rows, Some(c), None, limit);
    PageSplits(rows, None, None, limit, rows[0]);
    assert PageOf(rows, None, None, limit).hasMore ==> first != [] && first[0] in first;
    DescendingUnique(first, rows);
    DescendingUnique(second, []);
  }

  lemma Extend(es: seq<Event>, e: Event, svc: Services) returns (longer: seq<Event>)
    ensures longer == es + [e]
    ensures Run(longer, None, svc) == Apply(Run(es, None, svc), e, None, svc)
  {
    longer := es + [e];
    assert longer[..|longer| - 1] == es;
  }

  // What the run below needs of the services
  ghost predicate Serves(db: Db, svc: Services, next: string, c: Cursor, rows: seq<Row>) {
    && Shown(db) && svc.decode("") == Ok(None) && svc.encode(None) == "" && svc.decode(next) == Ok(Some(c)) && next != ""
    && svc.list(db, None, None, 20).messages == rows && rows != []
    && svc.list(db, None, None, 20).next == NextCursor(rows) && svc.encode(NextCursor(rows)) == next
    && svc.list(db, Some(c), None, 20).messages == [] && svc.list(db, Some(c), None, 20).next == None
    && Storable(rows) && CachedCopy(rows) == rows && svc.key("", 20) != svc.key(next, 20)
  }

  // A call for the newest page, which misses
  lemma FirstReads(db: Db, svc: Services, next: string, c: Cursor, rows: seq<Row>) returns (es: seq<Event>)
    requires Serves(db, svc, next, c, rows)
    ensures Run(es, None, svc) ==
      State([INIT.history[0], db], map[], map[], 0, [Reading("", 20, "", None, 20)], [], [])
  {
    es := Extend([], Change(db), svc);
    assert Current(Run([], None, svc)).messages <= db.messages;
    es := Extend(es, Arrive("", 20), svc);
    assert Run(es, None, svc).calls == [Looking("", 20, "", None, 20)];
    es := Extend(es, Look(0, false), svc);
  }

  // ... and stores what it reads
  lemma FirstMiss(db: Db, svc: Services, next: string, c: Cursor, rows: seq<Row>) returns (es: seq<Event>)
    requires Serves(db, svc, next, c, rows)
    ensures
      var page, start := CachedPage(rows, CACHE_TTL), INIT.history[0];
      Run(es, None, svc) == State([start, db], map[svc.key("", 20) := page], map[svc.key("", 20) := 0], 0, [Over],
        [Fill("", 20, rows, 1, 0)], [Response("", 20, "", 20, rows, next, false, 0, 1, 0)])
  {
    es := FirstReads(db, svc, next, c, rows);
    es := Extend(es, Query(0, false), svc);
    es := Extend(es, Store(0, false), svc);
  }

  // A call for the page after it, which misses
  lemma SecondReads(db: Db, svc: Services, next: string, c: Cursor, rows: seq<Row>) returns (es: seq<Event>)
    requires Serves(db, svc, next, c, rows)
    ensures
      var page, start := CachedPage(rows, CACHE_TTL), INIT.history[0];
      Run(es, None, svc) == State([start, db], map[svc.key("", 20) := page], map[svc.key("", 20) := 0], 0,
        [Over, Reading(next, 20, next, Some(c), 20)],
        [Fill("", 20, rows, 1, 0)], [Response("", 20, "", 20, rows, next, false, 0, 1, 0)])
  {
    es := FirstMiss(db, svc, next, c, rows);
    es := Extend(es, Arrive(next, 20), svc);
    assert Run(es, None, svc).calls == [Over, Looking(next, 20, next, Some(c), 20)];
    es := Extend(es, Look(1, false), svc);
    assert Run(es, None, svc).calls == [Over, Reading(next, 20, next, Some(c), 20)];
  }

  lemma SecondFills(db: Db, svc: Services, next: string, c: Cursor, rows: seq<Row>) returns (es: seq<Event>)
    requires Serves(db, svc, next, c, rows)
    ensures
      var page, start := CachedPage(rows, CACHE_TTL), INIT.history[0];
      Run(es, None, svc) == State([start, db], map[svc.key("", 20) := page], map[svc.key("", 20) := 0], 0,
        [Over, Filling(next, 20, next, Some(c), 20, svc.list(db, Some(c), None, 20), 1)],
        [Fill("", 20, rows, 1, 0)], [Response("", 20, "", 20, rows, next, false, 0, 1, 0)])
  {
    es := SecondReads(db, svc, next, c, rows);
    es := Extend(es, Query(1, false), svc);
    assert Run(es, None, svc).calls == [Over, Filling(next, 20, next, Some(c), 20, svc.list(db, Some(c), None, 20), 1)];
  }

  lemma SecondMiss(db: Db, svc: Services, next: string, c: Cursor, rows: seq<Row>) returns (es: seq<Event>)
    requires Serves(db, svc, next, c, rows)
    ensures
      var s := Run(es, None, svc);
      && svc.key("", 20) in s.pages && s.pages[svc.key("", 20)] == CachedPage(rows, CACHE_TTL)
      && svc.key("", 20) in s.origin && s.origin[svc.key("", 20)] == 0
      && s.history != [] && s.clock == 0 && s.calls == [Over, Over] && s.fills != []
      && |s.log| == 2 && s.log[1].raw == next && s.log[1].next == ""
  {
    es := SecondFills(db, svc, next, c, rows);
    es := Extend(es, Store(1, false), svc);
  }

  lemma ThenHit(db: Db, svc: Services, next: string, c: Cursor, rows: seq<Row>) returns (es: seq<Event>)
    requires Serves(db, svc, next, c, rows)
    ensures
      var log := Run(es, None, svc).log;
      |log| == 3 && log[2].hit && log[2].messages == rows && IsWalk(log, [2, 1])
  {
    es := SecondMiss(db, svc, next, c, rows);
    es := Extend(es, Arrive("", 20), svc);
    assert Run(es, None, svc).calls == [Over, Over, Looking("", 20, "", None, 20)];
    es := Extend(es, Look(2, false), svc);
    var log := Run(es, None, svc).log;
    assert Continues(log[2], log[1]);
  }

  lemma NextText(t: Time, lenient: Lenient, next: string, c: Cursor)
    requires Presentable(t) && next == EncodeCursor(Some(Cursor(t, 7))) && c == Cursor(CutToMinutes(t), 7)
    ensures next != "" && DecodeCursor(next, lenient) == Ok(Some(c)) && SamePosition(c, Cursor(t, 7))
  {
    EncodeDecode(Cursor(t, 7), lenient);
    OffsetShifts(t);
  }

  lemma Pages(t: Time, c: Cursor)
    requires Presentable(t) && SamePosition(c, Cursor(t, 7))
    ensures |StreamRows(Posted(t))| == 1 && CursorOf(StreamRows(Posted(t))[0]) == Cursor(t, 7)
    ensures StreamRows(Posted(t))[0].message == Message(7, 1, "hello", None, t) && Shown(Posted(t))
    ensures Storable(StreamRows(Posted(t))) && CachedCopy(StreamRows(Posted(t))) == StreamRows(Posted(t))
    ensures ListOf(Posted(t), None, None, 20).messages == StreamRows(Posted(t))
    ensures ListOf(Posted(t), Some(c), None, 20).messages == []
  {
    PostedIsShown(t);
    RowsOf(Posted(t));
    OneRowPages(StreamRows(Posted(t)), c, 20);
    CopyIsSame(StreamRows(Posted(t)));
    CleanCopy(StreamRows(Posted(t))[0]);
  }

  lemma KeysDiffer(next: string, svc: Services)
    requires KeyLaw(svc) && svc.decode("").Ok? && svc.decode(next).Ok? && next != ""
    ensures svc.key("", 20) != svc.key(next, 20)
  {
    assert KeysApart(svc, "", 20, next, 20);
  }

  lemma RealKeysDiffer(next: string, lenient: Lenient)
    requires DecodeCursor(next, lenient).Ok? && next != ""
    ensures Real(lenient).key("", 20) != Real(lenient).key(next, 20)
  {
    RealIsLawful(lenient);
    KeysDiffer(next, Real(lenient));
  }

  lemma ServesIf(t: Time, svc: Services, next: string, c: Cursor, rows: seq<Row>)
    requires Shown(Posted(t)) && svc.list == ListOf && svc.encode == EncodeCursor && |rows| == 1
    requires svc.decode("") == Ok(None) && svc.decode(next) == Ok(Some(c)) && next != ""
    requires ListOf(Posted(t), None, None, 20).messages == rows && ListOf(Posted(t), Some(c), None, 20).messages == []
    requires EncodeCursor(Some(CursorOf(rows[0]))) == next
    requires Storable(rows) && CachedCopy(rows) == rows && svc.key("", 20) != svc.key(next, 20)
    ensures Serves(Posted(t), svc, next, c, rows)
  {
  }

  lemma RealServes(t: Time, lenient: Lenient, next: string, c: Cursor)
    requires Presentable(t) && next == EncodeCursor(Some(Cursor(t, 7))) && c == Cursor(CutToMinutes(t), 7)
    ensures Serves(Posted(t), Real(lenient), next, c, StreamRows(Posted(t)))
    ensures |StreamRows(Posted(t))| == 1 && StreamRows(Posted(t))[0].message == Message(7, 1, "hello", None, t)
  {
    NextText(t, lenient, next, c);
    RealKeysDiffer(next, lenient);
    Pages(t, c);
    ServesIf(t, Real(lenient), next, c, StreamRows(Posted(t)));
  }

  /** Whenever the post's time can be carried by a cursor, there is a run with a walk that starts
      with a hit on the page holding it. */
  lemma WalkExists(t: Time, lenient: Lenient) returns (es: seq<Event>, walk: seq<nat>)
    requires Presentable(t)
    ensures
      var log := RunReal(es, None, lenient).log;
      && IsWalk(log, walk) && log[walk[0]].hit
      && |log[walk[0]].messages| == 1 && log[walk[0]].messages[0].message == Message(7, 1, "hello", None, t)
  {
    var next, c := EncodeCursor(Some(Cursor(t, 7))), Cursor(CutToMinutes(t), 7);
    RealServes(t, lenient, next, c);
    es := ThenHit(Posted(t), Real(lenient), next, c, StreamRows(Posted(t)));
    walk := [2, 1];
  }
}
