/** What the cached stream guarantees, over every run of concurrent calls with one agent filter. */
module StreamSafety {
  import opened Options
  import opened Cursors
  import opened Database
  import opened Messages
  import opened Walks
  import opened PageKeys
  import opened Stream
  import Rfc3339

  /* ---------- pages of well-formed tables ---------- */

  lemma RowsOf(db: Db)
    requires DbOk(db)
    ensures |StreamRows(db)| == |db.messages|
    ensures forall i :: 0 <= i < |db.messages| ==> StreamRows(db)[i].message == db.messages[i]
    ensures IdsDistinct(StreamRows(db))
  {
    StreamMessages(db);
  }

  // A row that JSON carries without loss
  ghost predicate Clean(r: Row) {
    Rfc3339.Valid(r.message.createdAt) && Encodable(r.message.createdAt)
  }

  lemma PageIsClean(db: Db, cursor: Option<Cursor>, agent: Option<Uuid>, limit: nat, i: nat)
    requires Shown(db)
    ensures var page := PageOf(StreamRows(db), cursor, agent, limit).messages;
      i < |page| ==> Clean(page[i]) && page[i].message in db.messages
  {
    RowsOf(db);
    PageWithin(StreamRows(db), cursor, agent, limit);
    var page := PageOf(StreamRows(db), cursor, agent, limit).messages;
    if i < |page| {
      assert page[i] in page;
      var j :| 0 <= j < |db.messages| && StreamRows(db)[j] == page[i];
      assert db.messages[j] == page[i].message;
    }
  }

  lemma CleanCopy(r: Row)
    requires Clean(r)
    ensures CopyRow(r) == r && Rfc3339Marshals(r)
  {
    assert CutToMinutes(r.message.createdAt).offset == r.message.createdAt.offset;
  }

  lemma CopyIsSame(messages: seq<Row>)
    requires forall i :: 0 <= i < |messages| ==> Clean(messages[i])
    ensures CachedCopy(messages) == messages
  {
    forall i | 0 <= i < |messages| ensures CopyRow(messages[i]) == messages[i] { CleanCopy(messages[i]); }
  }

  /* ---------- the laws of the services ---------- */

  ghost predicate EncodesWell(svc: Services, c: Cursor) {
    svc.encode(Some(c)) != "" &&
    var d := svc.decode(svc.encode(Some(c)));
    d.Ok? && d.cursor.Some? && SamePosition(d.cursor.value, c)
  }

  ghost predicate KeysApart(svc: Services, a: string, l: nat, b: string, m: nat) {
    svc.decode(a).Ok? && svc.decode(b).Ok? && svc.key(a, l) == svc.key(b, m) ==> a == b && l == m
  }

  ghost predicate PageIsFit(page: Page, db: Db) {
    && page.next == NextCursor(page.messages)
    && (Shown(db) ==> forall i :: 0 <= i < |page.messages| ==>
          Clean(page.messages[i]) && page.messages[i].message in db.messages)
  }

  ghost predicate EncodeLaw(svc: Services) {
    && svc.encode(None) == "" && svc.decode("") == Ok(None)
    && (forall c: Cursor :: Rfc3339.Valid(c.createdAt) && Encodable(c.createdAt) ==> EncodesWell(svc, c))
  }

  ghost predicate KeyLaw(svc: Services) {
    forall a, l: nat, b, m: nat :: KeysApart(svc, a, l, b, m)
  }

  ghost predicate ListLaw(svc: Services) {
    forall db, cursor, agent, limit :: PageIsFit(svc.list(db, cursor, agent, limit), db)
  }

  /** ListMessages, EncodeCursor, DecodeCursor and pageKey obey the laws the runs need. */
  lemma RealIsLawful(lenient: Lenient)
    ensures EncodeLaw(Real(lenient)) && KeyLaw(Real(lenient)) && ListLaw(Real(lenient))
  {
    var svc := Real(lenient);
    forall c: Cursor | Rfc3339.Valid(c.createdAt) && Encodable(c.createdAt) ensures EncodesWell(svc, c) {
      CursorRoundTrip(c, lenient);
      EncodeDecode(c, lenient);
    }
    forall a, l: nat, b, m: nat ensures KeysApart(svc, a, l, b, m) {
      if svc.decode(a).Ok? && svc.decode(b).Ok? && svc.key(a, l) == svc.key(b, m) {
        KeysInjective(a, l, b, m, lenient);
      }
    }
    forall db, cursor, agent, limit ensures PageIsFit(svc.list(db, cursor, agent, limit), db) {
      ListIsFit(db, cursor, agent, limit);
    }
  }

  lemma ListIsFit(db: Db, cursor: Option<Cursor>, agent: Option<Uuid>, limit: nat)
    ensures PageIsFit(ListOf(db, cursor, agent, limit), db)
  {
    var page := ListOf(db, cursor, agent, limit);
    if Shown(db) {
      forall i | 0 <= i < |page.messages|
        ensures Clean(page.messages[i]) && page.messages[i].message in db.messages
      {
        PageIsClean(db, cursor, agent, limit, i);
      }
    }
  }

  /* ---------- the invariant ---------- */

  // messages is what ListMessages gave for this cursor text and limit in state moment of the tables
  ghost predicate ReadAt(s: State, text: string, limit: nat, messages: seq<Row>, moment: nat,
                         agent: Option<Uuid>, svc: Services) {
    && svc.decode(text).Ok? && limit > 0 && moment < |s.history|
    && messages == svc.list(s.history[moment], CursorIn(svc.decode(text)), agent, limit).messages
  }

  ghost predicate HistoryOk(s: State) {
    && s.history != []
    && (forall i :: 0 <= i < |s.history| ==> Shown(s.history[i]))
    && (forall i, j :: 0 <= i <= j < |s.history| ==> Grows(s.history[i], s.history[j]))
  }

  ghost predicate FillOk(s: State, f: Fill, agent: Option<Uuid>, svc: Services) {
    ReadAt(s, f.text, f.limit, f.messages, f.moment, agent, svc) && f.at <= s.clock
  }

  ghost predicate PageOk(s: State, key: string, svc: Services)
    requires key in s.pages
  {
    key in s.origin && s.origin[key] < |s.fills| &&
    var f := s.fills[s.origin[key]];
    key == svc.key(f.text, f.limit) && s.pages[key] == CachedPage(f.messages, f.at + CACHE_TTL)
  }

  function LimitFor(asked: int): nat {
    if 1 <= asked <= 100 then asked else 20
  }

  ghost predicate CallOk(s: State, c: Call, agent: Option<Uuid>, svc: Services) {
    c.Over? ||
    (svc.decode(c.text).Ok? && c.cursor == CursorIn(svc.decode(c.text)) && c.limit > 0 &&
     c.text == TextIn(c.raw, svc.decode(c.raw)) && c.limit == LimitFor(c.asked) &&
     (c.Filling? ==>
        c.moment < |s.history| && c.page == svc.list(s.history[c.moment], c.cursor, agent, c.limit)))
  }

  // A hit returns the page some SetPage stored less than 30 s before, for the same request
  ghost predicate FreshHit(s: State, r: Response) {
    r.fill < |s.fills| &&
    var f := s.fills[r.fill];
    f.text == r.text && f.limit == r.limit && f.messages == r.messages && f.moment == r.moment &&
    0 <= r.at - f.at < 30_000
  }

  ghost predicate ResponseOk(s: State, r: Response, agent: Option<Uuid>, svc: Services) {
    && ReadAt(s, r.text, r.limit, r.messages, r.moment, agent, svc)
    && r.text == TextIn(r.raw, svc.decode(r.raw)) && r.limit == LimitFor(r.asked)
    && r.next == svc.encode(NextCursor(r.messages))
    && (r.hit ==> FreshHit(s, r))
  }

  ghost predicate FillsOk(s: State, agent: Option<Uuid>, svc: Services) {
    forall k :: 0 <= k < |s.fills| ==> FillOk(s, s.fills[k], agent, svc)
  }

  ghost predicate PagesOk(s: State, svc: Services) {
    forall key :: key in s.pages ==> PageOk(s, key, svc)
  }

  ghost predicate CallsOk(s: State, agent: Option<Uuid>, svc: Services) {
    forall i :: 0 <= i < |s.calls| ==> CallOk(s, s.calls[i], agent, svc)
  }

  ghost predicate LogOk(s: State, agent: Option<Uuid>, svc: Services) {
    forall i :: 0 <= i < |s.log| ==> ResponseOk(s, s.log[i], agent, svc)
  }

  ghost predicate Inv(s: State, agent: Option<Uuid>, svc: Services) {
    HistoryOk(s) && FillsOk(s, agent, svc) && PagesOk(s, svc) && CallsOk(s, agent, svc) && LogOk(s, agent, svc)
  }

  // Later states know everything earlier ones did
  ghost predicate Extends(s: State, s': State) {
    s.history <= s'.history && s.fills <= s'.fills && s.clock <= s'.clock
  }

  lemma Keeps(s: State, s': State, agent: Option<Uuid>, svc: Services)
    requires Inv(s, agent, svc) && Extends(s, s')
    ensures forall k :: 0 <= k < |s.fills| ==> FillOk(s', s.fills[k], agent, svc)
    ensures forall i :: 0 <= i < |s.calls| ==> CallOk(s', s.calls[i], agent, svc)
    ensures forall i :: 0 <= i < |s.log| ==> ResponseOk(s', s.log[i], agent, svc)
  {
    forall k | 0 <= k < |s.fills| ensures FillOk(s', s.fills[k], agent, svc) {
      assert FillOk(s, s.fills[k], agent, svc);
    }
    forall i | 0 <= i < |s.calls| ensures CallOk(s', s.calls[i], agent, svc) {
      assert CallOk(s, s.calls[i], agent, svc);
    }
    forall i | 0 <= i < |s.log| ensures ResponseOk(s', s.log[i], agent, svc) {
      assert ResponseOk(s, s.log[i], agent, svc);
    }
  }

  lemma TextIsUsable(raw: string, svc: Services)
    requires svc.decode("") == Ok(None)
    ensures var text := TextIn(raw, svc.decode(raw));
      svc.decode(text).Ok? && CursorIn(svc.decode(text)) == CursorIn(svc.decode(raw))
  {
  }

  // A call goes on to its next step
  lemma CallMoves(s: State, i: nat, c: Call, agent: Option<Uuid>, svc: Services)
    requires Inv(s, agent, svc) && i < |s.calls| && CallOk(s, c, agent, svc)
    ensures Inv(s.(calls := s.calls[i := c]), agent, svc)
  {
    var s' := s.(calls := s.calls[i := c]);
    Keeps(s, s', agent, svc);
    assert CallOk(s', c, agent, svc);
    forall k | k in s'.pages ensures PageOk(s', k, svc) { assert PageOk(s, k, svc); }
  }

  // A call returns
  lemma CallReturns(s: State, i: nat, r: Response, agent: Option<Uuid>, svc: Services)
    requires Inv(s, agent, svc) && i < |s.calls| && ResponseOk(s, r, agent, svc)
    ensures Inv(Respond(s, i, r), agent, svc)
  {
    var s' := s.(log := s.log + [r]);
    Keeps(s, s', agent, svc);
    assert ResponseOk(s', r, agent, svc);
    forall k | k in s'.pages ensures PageOk(s', k, svc) { assert PageOk(s, k, svc); }
    CallMoves(s', i, Over, agent, svc);
  }

  // SetPage takes effect
  lemma FillKeepsInv(s: State, f: Fill, agent: Option<Uuid>, svc: Services)
    requires Inv(s, agent, svc) && FillOk(s, f, agent, svc) && f.at == s.clock
    ensures Inv(WithFill(s, f, f.messages, svc), agent, svc)
  {
    var s' := WithFill(s, f, f.messages, svc);
    Keeps(s, s', agent, svc);
    assert FillOk(s', f, agent, svc);
    forall k | k in s'.pages ensures PageOk(s', k, svc) {
      if k in s.pages { assert PageOk(s, k, svc); }
    }
  }

  // The page under the call's key was filled for the very same text and limit
  lemma HitIsOk(s: State, c: Call, agent: Option<Uuid>, svc: Services)
    requires KeyLaw(svc) && Inv(s, agent, svc) && c.Looking? && CallOk(s, c, agent, svc)
    requires Hit(s.pages, svc.key(c.text, c.limit), s.clock).Some?
    ensures
      var key := svc.key(c.text, c.limit);
      && key in s.origin && s.origin[key] < |s.fills|
      && ResponseOk(s, HitResponse(s, c, s.origin[key], svc), agent, svc)
  {
    var key := svc.key(c.text, c.limit);
    assert PageOk(s, key, svc);
    var f := s.fills[s.origin[key]];
    assert FillOk(s, f, agent, svc);
    assert KeysApart(svc, c.text, c.limit, f.text, f.limit);
  }

  lemma LookKeepsInv(s: State, i: nat, down: bool, agent: Option<Uuid>, svc: Services)
    requires KeyLaw(svc) && Inv(s, agent, svc) && i < |s.calls| && s.calls[i].Looking?
    ensures Inv(LookUp(s, i, down, svc), agent, svc)
  {
    var c := s.calls[i];
    var key := svc.key(c.text, c.limit);
    assert CallOk(s, c, agent, svc);
    if !down && Hit(s.pages, key, s.clock).Some? {
      HitIsOk(s, c, agent, svc);
      CallReturns(s, i, HitResponse(s, c, s.origin[key], svc), agent, svc);
    } else {
      CallMoves(s, i, Reading(c.raw, c.asked, c.text, c.cursor, c.limit), agent, svc);
    }
  }

  lemma QueryKeepsInv(s: State, i: nat, down: bool, agent: Option<Uuid>, svc: Services)
    requires Inv(s, agent, svc) && i < |s.calls| && s.calls[i].Reading?
    ensures Inv(Queried(s, i, down, agent, svc), agent, svc)
  {
    var c := s.calls[i];
    assert CallOk(s, c, agent, svc);
    if down {
      CallMoves(s, i, Over, agent, svc);
    } else {
      var page := svc.list(Current(s), c.cursor, agent, c.limit);
      CallMoves(s, i, Filling(c.raw, c.asked, c.text, c.cursor, c.limit, page, |s.history| - 1), agent, svc);
    }
  }

  // The page a call is about to store can be stored without loss
  lemma FillingIsFit(s: State, c: Call, agent: Option<Uuid>, svc: Services)
    requires ListLaw(svc) && Inv(s, agent, svc) && c in s.calls && c.Filling?
    ensures c.page.next == NextCursor(c.page.messages)
    ensures forall j :: 0 <= j < |c.page.messages| ==> Clean(c.page.messages[j])
  {
    assert CallOk(s, c, agent, svc);
    assert Shown(s.history[c.moment]);
    assert PageIsFit(svc.list(s.history[c.moment], c.cursor, agent, c.limit), s.history[c.moment]);
  }

  lemma StoreKeepsInv(s: State, i: nat, down: bool, agent: Option<Uuid>, svc: Services)
    requires Inv(s, agent, svc) && i < |s.calls| && s.calls[i].Filling?
    requires forall j :: 0 <= j < |s.calls[i].page.messages| ==> Clean(s.calls[i].page.messages[j])
    requires s.calls[i].page.next == NextCursor(s.calls[i].page.messages)
    ensures Inv(Fills(s, i, down, svc), agent, svc)
  {
    var c := s.calls[i];
    assert CallOk(s, c, agent, svc);
    CopyIsSame(c.page.messages);
    var f := Fill(c.text, c.limit, c.page.messages, c.moment, s.clock);
    var r := FillResponse(s, c, svc);
    assert ResponseOk(s, r, agent, svc);
    if down || !Storable(c.page.messages) {
      CallReturns(s, i, r, agent, svc);
    } else {
      FillKeepsInv(s, f, agent, svc);
      CallReturns(WithFill(s, f, f.messages, svc), i, r, agent, svc);
    }
  }

  // A call starts with what its caller sent
  lemma ArrivesAsSent(s: State, raw: string, limit: int, agent: Option<Uuid>, svc: Services)
    requires s.history != []
    ensures
      var s' := Apply(s, Arrive(raw, limit), agent, svc);
      && |s'.calls| == |s.calls| + 1 && s'.calls[..|s.calls|] == s.calls
      && var c := s'.calls[|s.calls|];
         c.Looking? && c.raw == raw && c.asked == limit && c.limit == if 1 <= limit <= 100 then limit else 20
  {
  }

  lemma CallArrives(s: State, c: Call, agent: Option<Uuid>, svc: Services)
    requires Inv(s, agent, svc) && CallOk(s, c, agent, svc)
    ensures Inv(s.(calls := s.calls + [c]), agent, svc)
  {
    var s' := s.(calls := s.calls + [c]);
    Keeps(s, s', agent, svc);
    assert CallOk(s', c, agent, svc);
    forall k | k in s'.pages ensures PageOk(s', k, svc) { assert PageOk(s, k, svc); }
  }

  lemma ArriveKeepsInv(s: State, raw: string, limit: int, agent: Option<Uuid>, svc: Services)
    requires svc.decode("") == Ok(None) && Inv(s, agent, svc)
    ensures Inv(Apply(s, Arrive(raw, limit), agent, svc), agent, svc)
  {
    TextIsUsable(raw, svc);
    CallArrives(s, Looking(raw, limit, TextIn(raw, svc.decode(raw)), CursorIn(svc.decode(raw)), Normal(limit)), agent, svc);
  }

  lemma GrowsTransitive(a: Db, b: Db, c: Db)
    requires Grows(a, b) && Grows(b, c)
    ensures Grows(a, c)
  {
  }

  lemma HistoryGrows(s: State, s': State, db: Db)
    requires HistoryOk(s) && Grows(Current(s), db) && Shown(db) && s'.history == s.history + [db]
    ensures HistoryOk(s')
  {
    forall i, j | 0 <= i <= j < |s'.history| ensures Grows(s'.history[i], s'.history[j]) {
      if i < |s.history| && j == |s.history| {
        assert Grows(s.history[i], Current(s));
        GrowsTransitive(s.history[i], Current(s), db);
      }
    }
  }

  lemma ChangeKeepsInv(s: State, db: Db, agent: Option<Uuid>, svc: Services)
    requires Inv(s, agent, svc) && Grows(Current(s), db) && Shown(db)
    ensures Inv(s.(history := s.history + [db]), agent, svc)
  {
    var s' := s.(history := s.history + [db]);
    HistoryGrows(s, s', db);
    Keeps(s, s', agent, svc);
    forall k | k in s'.pages ensures PageOk(s', k, svc) { assert PageOk(s, k, svc); }
  }

  lemma TimeKeepsInv(s: State, e: Event, agent: Option<Uuid>, svc: Services)
    requires Inv(s, agent, svc) && (e.Tick? || e.Evict?)
    ensures Inv(Apply(s, e, agent, svc), agent, svc)
  {
    var s' := Apply(s, e, agent, svc);
    Keeps(s, s', agent, svc);
    forall k | k in s'.pages ensures PageOk(s', k, svc) { assert PageOk(s, k, svc); }
  }

  lemma LookEvent(s: State, i: nat, down: bool, agent: Option<Uuid>, svc: Services)
    requires KeyLaw(svc) && Inv(s, agent, svc)
    ensures Inv(Apply(s, Look(i, down), agent, svc), agent, svc)
  {
    if i < |s.calls| && s.calls[i].Looking? { LookKeepsInv(s, i, down, agent, svc); }
  }

  lemma QueryEvent(s: State, i: nat, down: bool, agent: Option<Uuid>, svc: Services)
    requires Inv(s, agent, svc)
    ensures Inv(Apply(s, Query(i, down), agent, svc), agent, svc)
  {
    if i < |s.calls| && s.calls[i].Reading? { QueryKeepsInv(s, i, down, agent, svc); }
  }

  lemma StoreEvent(s: State, i: nat, down: bool, agent: Option<Uuid>, svc: Services)
    requires ListLaw(svc) && Inv(s, agent, svc)
    ensures Inv(Apply(s, Store(i, down), agent, svc), agent, svc)
  {
    if i < |s.calls| && s.calls[i].Filling? {
      FillingIsFit(s, s.calls[i], agent, svc);
      StoreKeepsInv(s, i, down, agent, svc);
    }
  }

  lemma ChangeEvent(s: State, db: Db, agent: Option<Uuid>, svc: Services)
    requires Inv(s, agent, svc)
    ensures Inv(Apply(s, Change(db), agent, svc), agent, svc)
  {
    if Grows(Current(s), db) && Shown(db) { ChangeKeepsInv(s, db, agent, svc); }
  }

  lemma EventKeepsInv(s: State, e: Event, agent: Option<Uuid>, svc: Services)
    requires EncodeLaw(svc) && KeyLaw(svc) && ListLaw(svc) && Inv(s, agent, svc)
    ensures Inv(Apply(s, e, agent, svc), agent, svc)
  {
    match e
    case Change(db) => ChangeEvent(s, db, agent, svc);
    case Tick(_) => TimeKeepsInv(s, e, agent, svc);
    case Evict(_) => TimeKeepsInv(s, e, agent, svc);
    case Arrive(raw, limit) => ArriveKeepsInv(s, raw, limit, agent, svc);
    case Look(i, down) => LookEvent(s, i, down, agent, svc);
    case Query(i, down) => QueryEvent(s, i, down, agent, svc);
    case Store(i, down) => StoreEvent(s, i, down, agent, svc);
  }

  lemma {:induction false} Reachable(es: seq<Event>, agent: Option<Uuid>, svc: Services)
    requires EncodeLaw(svc) && KeyLaw(svc) && ListLaw(svc)
    ensures Inv(Run(es, agent, svc), agent, svc)
  {
    if es != [] {
      Reachable(es[..|es| - 1], agent, svc);
      EventKeepsInv(Run(es[..|es| - 1], agent, svc), es[|es| - 1], agent, svc);
    }
  }
}
