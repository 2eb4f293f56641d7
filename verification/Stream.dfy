/** The cached read path of the stream: internal/stream/cache.go over internal/store/redis/stream.go. */
module Stream {
  import opened Options
  import opened Cursors
  import opened Database
  import opened Messages
  import opened PageKeys
  import Rfc3339

  const DEFAULT_LIMIT := 20

  // 30 s, in milliseconds
  const CACHE_TTL := 30_000

  datatype CachedPage = CachedPage(messages: seq<Row>, expires: int)

  type Pages = map<string, CachedPage>

  /* ---------- what GetPage makes of its arguments ---------- */

  function Normal(limit: int): (n: int)
    ensures 1 <= limit <= 100 ==> n == limit
    ensures limit < 1 || limit > 100 ==> n == 20
  {
    if limit <= 0 || limit > 100 then DEFAULT_LIMIT else limit
  }

  function CursorIn(d: Decoded): Option<Cursor> {
    if d.Ok? then d.cursor else None
  }

  // A cursor that does not decode falls back to the newest page
  function TextIn(raw: string, d: Decoded): string {
    if d.Ok? then raw else ""
  }

  /* ---------- the Redis store ---------- */

  function Hit(pages: Pages, key: string, now: int): Option<seq<Row>> {
    if key in pages && now < pages[key].expires then Some(pages[key].messages) else None
  }

  predicate Storable(messages: seq<Row>) {
    forall i :: 0 <= i < |messages| ==> Rfc3339Marshals(messages[i])
  }

  predicate Rfc3339Marshals(r: Row) {
    Rfc3339.Marshals(r.message.createdAt)
  }

  // A row as it comes back from its JSON
  function CopyRow(r: Row): Row {
    r.(message := r.message.(createdAt := CutToMinutes(r.message.createdAt)))
  }

  function CachedCopy(messages: seq<Row>): seq<Row> {
    seq(|messages|, i requires 0 <= i < |messages| => CopyRow(messages[i]))
  }

  class Redis {
    var pages: Pages

    constructor ()
      ensures pages == map[]
    {
      pages := map[];
    }

    // None stands for a miss and for an error: GetPage treats them alike
    method GetPage(cursor: string, limit: int, now: int, down: bool) returns (cached: Option<seq<Row>>)
      ensures cached == if down then None else Hit(pages, PageKey(cursor, limit), now)
    {
      var key := PageKey(cursor, limit);
      if down || key !in pages || pages[key].expires <= now {
        return None;
      }
      return Some(pages[key].messages);
    }

    method SetPage(cursor: string, limit: int, messages: seq<Row>, ttl: int, now: int, down: bool) returns (ok: bool)
      modifies this
      ensures ok == (Storable(messages) && !down)
      ensures pages == if ok then old(pages)[PageKey(cursor, limit) := CachedPage(CachedCopy(messages), now + ttl)]
                       else old(pages)
    {
      var key := PageKey(cursor, limit);
      if !Storable(messages) || down {
        return false;
      }
      pages := pages[key := CachedPage(CachedCopy(messages), now + ttl)];
      return true;
    }
  }

  // Which of the three services a call can lose
  datatype Outage = Outage(get: bool, query: bool, put: bool)

  // After a miss: read the page from the tables and store it, if it can be
  method FetchAndFill(db: Db, rdb: Redis, cursorStr: string, cursor: Option<Cursor>, limit: int,
                      agentId: Option<Uuid>, now: int, out: Outage)
    returns (page: Option<Page>)
    requires limit >= 0
    modifies rdb
    ensures page == if out.query then None else Some(PageOf(StreamRows(db), cursor, agentId, limit))
    ensures rdb.pages == if page.Some? && Storable(page.value.messages) && !out.put
                         then old(rdb.pages)[PageKey(cursorStr, limit) :=
                                CachedPage(CachedCopy(page.value.messages), now + CACHE_TTL)]
                         else old(rdb.pages)
    ensures page.Some? && DbOk(db) ==> IsNewestPage(page.value.messages, StreamRows(db), cursor, agentId, limit)
  {
    if out.query {
      return None;
    }
    page := ListMessages(db, cursor, agentId, limit);
    if page.Some? {
      var stored := rdb.SetPage(cursorStr, limit, page.value.messages, CACHE_TTL, now, out.put);
    }
  }

  // What a caller of GetPage sees
  datatype Answer = Failed | Answer(messages: seq<Row>, nextCursor: string, hasMore: bool)

  /** GetPage. An unexpired page under the key is returned as it is, with has_more false; otherwise
      the page is read from the tables and stored under the key, if it can be. Only a failing
      query fails the call. agentId is the parsed agent filter, None when absent or unparsable. */
  method GetPage(db: Db, rdb: Redis, cursorStr: string, limit: int, agentId: Option<Uuid>,
                 now: int, out: Outage, lenient: Lenient)
    returns (answer: Answer)
    modifies rdb
    ensures
      var n, decoded := Normal(limit), DecodeCursor(cursorStr, lenient);
      var key := PageKey(TextIn(cursorStr, decoded), n);
      var hit := if out.get then None else Hit(old(rdb.pages), key, now);
      var page := PageOf(StreamRows(db), CursorIn(decoded), agentId, n);
      if hit.Some? then
        answer == Answer(hit.value, EncodeCursor(NextCursor(hit.value)), false) && rdb.pages == old(rdb.pages)
      else if out.query then
        answer == Failed && rdb.pages == old(rdb.pages)
      else
        answer == Answer(page.messages, EncodeCursor(page.next), page.hasMore) &&
        rdb.pages == if Storable(page.messages) && !out.put
                     then old(rdb.pages)[key := CachedPage(CachedCopy(page.messages), now + CACHE_TTL)]
                     else old(rdb.pages)
    ensures
      var wanted, decoded := if 1 <= limit <= 100 then limit else 20, DecodeCursor(cursorStr, lenient);
      var missed := out.get || Hit(old(rdb.pages), PageKey(if decoded.Ok? then cursorStr else "", wanted), now).None?;
      missed && answer.Answer? && DbOk(db) ==>
        IsNewestPage(answer.messages, StreamRows(db), CursorIn(decoded), agentId, wanted)
  {
    var limit := limit;
    if limit <= 0 || limit > 100 {
      limit := DEFAULT_LIMIT;
    }

    var cursorStr := cursorStr;
    var decoded := DecodeCursor(cursorStr, lenient);
    var cursor: Option<Cursor> := None;
    if decoded.DecodeError? {
      cursorStr := "";
    } else {
      cursor := decoded.cursor;
    }

    var cached := rdb.GetPage(cursorStr, limit, now, out.get);
    if cached.Some? {
      var nextCursor: Option<Cursor> := None;
      if |cached.value| > 0 {
        var last := cached.value[|cached.value| - 1];
        nextCursor := Some(Cursor(last.message.createdAt, last.message.id));
      }
      return Answer(cached.value, EncodeCursor(nextCursor), false);
    }

    var page := FetchAndFill(db, rdb, cursorStr, cursor, limit, agentId, now, out);
    if page.None? {
      return Failed;
    }
    return Answer(page.value.messages, EncodeCursor(page.value.next), page.value.hasMore);
  }

  /* ---------- many calls at once ---------- */

  /** ListMessages, EncodeCursor, DecodeCursor and pageKey as the calls use them. What follows needs
      only the laws of StreamSafety (EncodeLaw, KeyLaw, ListLaw); RealIsLawful shows the real ones obey them. */
  datatype Services = Services(list: (Db, Option<Cursor>, Option<Uuid>, nat) -> Page,
                               encode: Option<Cursor> -> string,
                               decode: string -> Decoded,
                               key: (string, nat) -> string)

  function ListOf(db: Db, cursor: Option<Cursor>, agent: Option<Uuid>, limit: nat): Page {
    PageOf(StreamRows(db), cursor, agent, limit)
  }

  function Real(lenient: Lenient): Services {
    Services(ListOf, EncodeCursor, s => DecodeCursor(s, lenient), (text, limit) => PageKey(text, limit))
  }

  // A call between two of its steps. raw and asked are its arguments; text, cursor and limit are
  // what GetPage makes of them.
  datatype Call =
    | Looking(raw: string, asked: int, text: string, cursor: Option<Cursor>, limit: nat)
    | Reading(raw: string, asked: int, text: string, cursor: Option<Cursor>, limit: nat)
    | Filling(raw: string, asked: int, text: string, cursor: Option<Cursor>, limit: nat, page: Page, moment: nat)
    | Over

  // One SetPage that took effect: whose page, read from which state of the tables, and when
  datatype Fill = Fill(text: string, limit: nat, messages: seq<Row>, moment: nat, at: int)

  // What a call returned. moment is the state of the tables its page was read from; a hit's fill
  // is the SetPage that stored it.
  datatype Response = Response(raw: string, asked: int, text: string, limit: nat, messages: seq<Row>, next: string,
                               hit: bool, fill: nat, moment: nat, at: int)

  /** history holds the states the tables went through, the last being the current one. origin
      (which fill stored the page under a key), fills and log are history too. */
  datatype State = State(history: seq<Db>, pages: Pages, origin: map<string, nat>, clock: int,
                         calls: seq<Call>, fills: seq<Fill>, log: seq<Response>)

  datatype Event =
    | Change(db: Db)
    | Tick(ms: nat)
    | Evict(key: string)
    | Arrive(raw: string, limit: int)
    | Look(call: nat, down: bool)
    | Query(call: nat, down: bool)
    | Store(call: nat, down: bool)

  // Messages are only appended, and the server's zone shows their times in a form JSON can carry
  ghost predicate Grows(a: Db, b: Db) {
    a.messages <= b.messages
  }

  ghost predicate Shown(db: Db) {
    DbOk(db) && forall i :: 0 <= i < |db.messages| ==>
      Rfc3339.Valid(db.messages[i].createdAt) && Encodable(db.messages[i].createdAt)
  }

  ghost function Current(s: State): Db
    requires s.history != []
  {
    s.history[|s.history| - 1]
  }

  ghost function Respond(s: State, i: nat, r: Response): State
    requires i < |s.calls|
  {
    s.(calls := s.calls[i := Over], log := s.log + [r])
  }

  ghost function HitResponse(s: State, c: Call, fill: nat, svc: Services): Response
    requires c.Looking? && fill < |s.fills| && svc.key(c.text, c.limit) in s.pages
  {
    var messages := s.pages[svc.key(c.text, c.limit)].messages;
    Response(c.raw, c.asked, c.text, c.limit, messages, svc.encode(NextCursor(messages)), true, fill,
             s.fills[fill].moment, s.clock)
  }

  ghost function LookUp(s: State, i: nat, down: bool, svc: Services): State
    requires i < |s.calls| && s.calls[i].Looking?
  {
    var c := s.calls[i];
    var key := svc.key(c.text, c.limit);
    var hit := if down then None else Hit(s.pages, key, s.clock);
    if hit.Some? && key in s.origin && s.origin[key] < |s.fills| then
      Respond(s, i, HitResponse(s, c, s.origin[key], svc))
    else s.(calls := s.calls[i := Reading(c.raw, c.asked, c.text, c.cursor, c.limit)])
  }

  ghost function Queried(s: State, i: nat, down: bool, agent: Option<Uuid>, svc: Services): State
    requires s.history != [] && i < |s.calls| && s.calls[i].Reading?
  {
    var c := s.calls[i];
    if down then s.(calls := s.calls[i := Over])
    else
      var page := svc.list(Current(s), c.cursor, agent, c.limit);
      s.(calls := s.calls[i := Filling(c.raw, c.asked, c.text, c.cursor, c.limit, page, |s.history| - 1)])
  }

  ghost function WithFill(s: State, f: Fill, copy: seq<Row>, svc: Services): State {
    var key := svc.key(f.text, f.limit);
    s.(pages := s.pages[key := CachedPage(copy, s.clock + CACHE_TTL)],
       origin := s.origin[key := |s.fills|],
       fills := s.fills + [f])
  }

  ghost function FillResponse(s: State, c: Call, svc: Services): Response
    requires c.Filling?
  {
    Response(c.raw, c.asked, c.text, c.limit, c.page.messages, svc.encode(c.page.next), false, 0, c.moment, s.clock)
  }

  ghost function Fills(s: State, i: nat, down: bool, svc: Services): State
    requires i < |s.calls| && s.calls[i].Filling?
  {
    var c := s.calls[i];
    var f := Fill(c.text, c.limit, c.page.messages, c.moment, s.clock);
    var s' := if down || !Storable(c.page.messages) then s
              else WithFill(s, f, CachedCopy(c.page.messages), svc);
    Respond(s', i, FillResponse(s, c, svc))
  }

  ghost function Apply(s: State, e: Event, agent: Option<Uuid>, svc: Services): State {
    if s.history == [] then s else
    match e
    case Change(db) =>
      if Grows(Current(s), db) && Shown(db) then s.(history := s.history + [db]) else s
    case Tick(ms) => s.(clock := s.clock + ms)
    case Evict(key) => s.(pages := s.pages - {key})
    case Arrive(raw, limit) =>
      s.(calls := s.calls + [Looking(raw, limit, TextIn(raw, svc.decode(raw)), CursorIn(svc.decode(raw)), Normal(limit))])
    case Look(i, down) => if i < |s.calls| && s.calls[i].Looking? then LookUp(s, i, down, svc) else s
    case Query(i, down) => if i < |s.calls| && s.calls[i].Reading? then Queried(s, i, down, agent, svc) else s
    case Store(i, down) => if i < |s.calls| && s.calls[i].Filling? then Fills(s, i, down, svc) else s
  }

  const INIT := State([Db([], [], [], [])], map[], map[], 0, [], [], [])

  ghost function Run(es: seq<Event>, agent: Option<Uuid>, svc: Services): State {
    if es == [] then INIT else Apply(Run(es[..|es| - 1], agent, svc), es[|es| - 1], agent, svc)
  }
}
