/** UpdateAgent (internal/store/pg/agents.go): an UPDATE whose SET list is built from the fields a
    request supplies. */
module Agents {
  import opened Options
  import opened Cursors
  import opened Database

  datatype UpdateAgentRequest = UpdateAgentRequest(displayName: Option<string>, description: Option<string>,
                                                   personality: Option<string>, active: Option<bool>)

  datatype Column = DisplayName | Description | Personality | Active

  // A piece of the query text; the numbers are its $ placeholders
  datatype Piece =
    | Assign(column: Column, value: nat)   // column = $value
    | Comma                                // ", "
    | WhereId(id: nat)                     // " WHERE id = $id RETURNING ..."

  datatype Arg = Text(s: string) | Json(j: string) | Flag(b: bool) | Id(u: Uuid)

  /* ---------- what the server makes of a query ---------- */

  datatype Update = Update(sets: seq<Piece>, id: nat)

  // UPDATE agents SET assignment {, assignment} WHERE id = $n; None is a syntax error
  function Parse(query: seq<Piece>): Option<Update> {
    if |query| < 2 || !query[0].Assign? then None
    else if |query| == 2 then
      if query[1].WhereId? then Some(Update([query[0]], query[1].id)) else None
    else if !query[1].Comma? then None
    else
      var rest := Parse(query[2..]);
      if rest.None? then None else Some(Update([query[0]] + rest.value.sets, rest.value.id))
  }

  predicate Fits(column: Column, arg: Arg) {
    match column
    case DisplayName => arg.Text?
    case Description => arg.Text?
    case Personality => arg.Json?
    case Active => arg.Flag?
  }

  function SetColumn(a: Agent, column: Column, arg: Arg): Agent
    requires Fits(column, arg)
  {
    match column
    case DisplayName => a.(displayName := arg.s)
    case Description => a.(description := arg.s)
    case Personality => a.(personality := arg.j)
    case Active => a.(active := arg.b)
  }

  predicate Uses(u: Update, p: nat) {
    p == u.id || exists i :: 0 <= i < |u.sets| && u.sets[i].Assign? && u.sets[i].value == p
  }

  // Every value is one of the arguments and has its column's type
  predicate Settable(sets: seq<Piece>, args: seq<Arg>) {
    forall i :: 0 <= i < |sets| ==>
      sets[i].Assign? && 1 <= sets[i].value <= |args| && Fits(sets[i].column, args[sets[i].value - 1])
  }

  // The placeholders are exactly $1 .. $n, and every value has its column's type and its own column
  predicate Binds(u: Update, args: seq<Arg>) {
    && Settable(u.sets, args)
    && 1 <= u.id <= |args| && args[u.id - 1].Id?
    && (forall i, j :: 0 <= i < j < |u.sets| ==> u.sets[i].column != u.sets[j].column)
    && (forall p :: 1 <= p <= |args| ==> Uses(u, p))
  }

  function SetAll(a: Agent, sets: seq<Piece>, args: seq<Arg>): Agent
    requires Settable(sets, args)
  {
    if sets == [] then a
    else
      var n := |sets| - 1;
      SetColumn(SetAll(a, sets[..n], args), sets[n].column, args[sets[n].value - 1])
  }

  function SetWhere(rows: seq<Agent>, u: Update, args: seq<Arg>): seq<Agent>
    requires Binds(u, args)
  {
    if rows == [] then []
    else
      var last := rows[|rows| - 1];
      SetWhere(rows[..|rows| - 1], u, args) +
      [if last.id == args[u.id - 1].u then SetAll(last, u.sets, args) else last]
  }

  // The rows of agents after the query; None is an error of the server
  function Exec(query: seq<Piece>, args: seq<Arg>, rows: seq<Agent>): Option<seq<Agent>> {
    var u := Parse(query);
    if u.None? || !Binds(u.value, args) then None else Some(SetWhere(rows, u.value, args))
  }

  /* ---------- the patch a request asks for ---------- */

  function Or<T>(given: Option<T>, kept: T): T {
    if given.Some? then given.value else kept
  }

  // Supplied fields replace the agent's; the others, its id and its username stay
  function Patch(a: Agent, req: UpdateAgentRequest): Agent {
    Agent(a.id, a.username, Or(req.displayName, a.displayName), Or(req.description, a.description),
          Or(req.personality, a.personality), Or(req.active, a.active))
  }

  function Patched(rows: seq<Agent>, id: Uuid, req: UpdateAgentRequest): (r: seq<Agent>)
    ensures |r| == |rows|
    ensures forall i :: 0 <= i < |rows| ==> r[i] == if rows[i].id == id then Patch(rows[i], req) else rows[i]
  {
    if rows == [] then []
    else
      var last := rows[|rows| - 1];
      Patched(rows[..|rows| - 1], id, req) + [if last.id == id then Patch(last, req) else last]
  }

  predicate Empty(req: UpdateAgentRequest) {
    req.displayName.None? && req.description.None? && req.personality.None? && req.active.None?
  }

  /* ---------- the SET list ---------- */

  function Grow(given: seq<(Column, Arg)>, column: Column, value: Option<Arg>): seq<(Column, Arg)> {
    if value.Some? then given + [(column, value.value)] else given
  }

  function TextOf(s: Option<string>): Option<Arg> { if s.Some? then Some(Text(s.value)) else None }
  function JsonOf(s: Option<string>): Option<Arg> { if s.Some? then Some(Json(s.value)) else None }
  function FlagOf(b: Option<bool>): Option<Arg> { if b.Some? then Some(Flag(b.value)) else None }

  // The columns a request supplies and their values, in the order UpdateAgent asks for them
  function Supplied(req: UpdateAgentRequest): seq<(Column, Arg)> {
    Grow(Grow(Grow(Grow([], DisplayName, TextOf(req.displayName)), Description, TextOf(req.description)),
              Personality, JsonOf(req.personality)), Active, FlagOf(req.active))
  }

  // sets and args say what given does, value by value
  predicate Lists(sets: seq<Piece>, args: seq<Arg>, given: seq<(Column, Arg)>) {
    && |sets| == |given| == |args|
    && (forall i :: 0 <= i < |given| ==> sets[i] == Assign(given[i].0, i + 1) && args[i] == given[i].1)
  }

  predicate FitAll(given: seq<(Column, Arg)>) {
    forall i :: 0 <= i < |given| ==> Fits(given[i].0, given[i].1)
  }

  predicate Typed(given: seq<(Column, Arg)>) {
    FitAll(given) && forall i, j :: 0 <= i < j < |given| ==> given[i].0 != given[j].0
  }

  function SetGiven(a: Agent, given: seq<(Column, Arg)>): Agent
    requires FitAll(given)
  {
    if given == [] then a
    else
      var n := |given| - 1;
      SetColumn(SetGiven(a, given[..n]), given[n].0, given[n].1)
  }

  lemma SuppliedIsTyped(req: UpdateAgentRequest)
    ensures Typed(Supplied(req)) && (Supplied(req) == [] <==> Empty(req))
  {
  }

  function SetMaybe(a: Agent, column: Column, value: Option<Arg>): Agent
    requires value.Some? ==> Fits(column, value.value)
  {
    if value.Some? then SetColumn(a, column, value.value) else a
  }

  lemma GrowSets(a: Agent, given: seq<(Column, Arg)>, column: Column, value: Option<Arg>)
    requires FitAll(given) && (value.Some? ==> Fits(column, value.value))
    ensures FitAll(Grow(given, column, value))
    ensures SetGiven(a, Grow(given, column, value)) == SetMaybe(SetGiven(a, given), column, value)
  {
    if value.Some? { assert Grow(given, column, value)[..|given|] == given; }
  }

  lemma SuppliedSets(a: Agent, d: Option<Arg>, e: Option<Arg>, p: Option<Arg>, f: Option<Arg>)
    requires d.Some? ==> d.value.Text?
    requires e.Some? ==> e.value.Text?
    requires p.Some? ==> p.value.Json?
    requires f.Some? ==> f.value.Flag?
    ensures
      var given := Grow(Grow(Grow(Grow([], DisplayName, d), Description, e), Personality, p), Active, f);
      FitAll(given) && SetGiven(a, given) ==
        SetMaybe(SetMaybe(SetMaybe(SetMaybe(a, DisplayName, d), Description, e), Personality, p), Active, f)
  {
    var x := Grow([], DisplayName, d);
    var y := Grow(x, Description, e);
    GrowSets(a, [], DisplayName, d);
    GrowSets(a, x, Description, e);
    GrowSets(a, y, Personality, p);
    GrowSets(a, Grow(y, Personality, p), Active, f);
  }

  lemma PatchInSteps(a: Agent, req: UpdateAgentRequest)
    ensures SetMaybe(SetMaybe(SetMaybe(SetMaybe(a, DisplayName, TextOf(req.displayName)),
              Description, TextOf(req.description)), Personality, JsonOf(req.personality)),
              Active, FlagOf(req.active)) == Patch(a, req)
  {
  }

  lemma SuppliedIsPatch(a: Agent, req: UpdateAgentRequest)
    requires FitAll(Supplied(req))
    ensures SetGiven(a, Supplied(req)) == Patch(a, req)
  {
    SuppliedSets(a, TextOf(req.displayName), TextOf(req.description), JsonOf(req.personality), FlagOf(req.active));
    PatchInSteps(a, req);
  }

  lemma {:induction false} SetAllIsGiven(a: Agent, sets: seq<Piece>, args: seq<Arg>, given: seq<(Column, Arg)>)
    requires |sets| == |given| <= |args| && FitAll(given)
    requires forall i :: 0 <= i < |given| ==> sets[i] == Assign(given[i].0, i + 1) && args[i] == given[i].1
    ensures SetAll(a, sets, args) == SetGiven(a, given)
  {
    if sets != [] {
      var n := |sets| - 1;
      SetAllIsGiven(a, sets[..n], args, given[..n]);
    }
  }

  lemma {:induction false} SetWhereIsPatched(rows: seq<Agent>, u: Update, args: seq<Arg>, id: Uuid, req: UpdateAgentRequest)
    requires Binds(u, args) && args[u.id - 1] == Id(id)
    requires forall a :: SetAll(a, u.sets, args) == Patch(a, req)
    ensures SetWhere(rows, u, args) == Patched(rows, id, req)
  {
    if rows != [] { SetWhereIsPatched(rows[..|rows| - 1], u, args, id, req); }
  }

  // The assignments joined by ", "
  function Joined(sets: seq<Piece>): seq<Piece> {
    if |sets| <= 1 then sets else Joined(sets[..|sets| - 1]) + [Comma, sets[|sets| - 1]]
  }

  lemma {:induction false} JoinedFromFront(sets: seq<Piece>)
    requires |sets| >= 2
    ensures Joined(sets) == [sets[0], Comma] + Joined(sets[1..])
  {
    var n := |sets| - 1;
    if n > 1 {
      JoinedFromFront(sets[..n]);
      assert sets[..n][1..] == sets[1..][..n - 1];
    }
  }

  lemma {:induction false} ParseJoined(sets: seq<Piece>, id: nat)
    requires sets != [] && forall i :: 0 <= i < |sets| ==> sets[i].Assign?
    ensures Parse(Joined(sets) + [WhereId(id)]) == Some(Update(sets, id))
  {
    var query := Joined(sets) + [WhereId(id)];
    if |sets| == 1 {
      assert sets == [sets[0]];
    } else {
      var tail := Joined(sets[1..]) + [WhereId(id)];
      JoinedFromFront(sets);
      ParseJoined(sets[1..], id);
      assert query == [sets[0], Comma] + tail;
      assert |tail| >= 2 && query[2..] == tail;
      assert sets == [sets[0]] + sets[1..];
    }
  }

  lemma ListsBinds(sets: seq<Piece>, args: seq<Arg>, given: seq<(Column, Arg)>, id: Uuid)
    requires Typed(given) && Lists(sets, args, given)
    ensures Binds(Update(sets, |args| + 1), args + [Id(id)])
  {
    var u := Update(sets, |args| + 1);
    assert Settable(sets, args + [Id(id)]);
    forall p: nat | 1 <= p <= |args| + 1 ensures Uses(u, p) {
      if p <= |args| { assert sets[p - 1].value == p; }
    }
  }

  lemma SetAllIsPatch(a: Agent, sets: seq<Piece>, args: seq<Arg>, id: Uuid, req: UpdateAgentRequest)
    requires Lists(sets, args, Supplied(req)) && Settable(sets, args + [Id(id)])
    ensures SetAll(a, sets, args + [Id(id)]) == Patch(a, req)
  {
    SuppliedIsTyped(req);
    SetAllIsGiven(a, sets, args + [Id(id)], Supplied(req));
    SuppliedIsPatch(a, req);
  }

  lemma RunsAsParsed(query: seq<Piece>, u: Update, args: seq<Arg>, rows: seq<Agent>)
    requires Parse(query) == Some(u) && Binds(u, args)
    ensures Exec(query, args, rows) == Some(SetWhere(rows, u, args))
  {
  }

  // The text built from the supplied fields and the id does what the request asks for
  lemma BuiltRuns(rows: seq<Agent>, sets: seq<Piece>, args: seq<Arg>, id: Uuid, req: UpdateAgentRequest)
    requires sets != [] && Lists(sets, args, Supplied(req))
    ensures Exec(Joined(sets) + [WhereId(|args| + 1)], args + [Id(id)], rows) == Some(Patched(rows, id, req))
  {
    var query, u, all := Joined(sets) + [WhereId(|args| + 1)], Update(sets, |args| + 1), args + [Id(id)];
    SuppliedIsTyped(req);
    ListsBinds(sets, args, Supplied(req), id);
    ParseJoined(sets, |args| + 1);
    RunsAsParsed(query, u, all, rows);
    PatchesWhere(rows, sets, args, id, req);
  }

  lemma PatchesWhere(rows: seq<Agent>, sets: seq<Piece>, args: seq<Arg>, id: Uuid, req: UpdateAgentRequest)
    requires Lists(sets, args, Supplied(req)) && Binds(Update(sets, |args| + 1), args + [Id(id)])
    ensures SetWhere(rows, Update(sets, |args| + 1), args + [Id(id)]) == Patched(rows, id, req)
  {
    forall a ensures SetAll(a, sets, args + [Id(id)]) == Patch(a, req) {
      SetAllIsPatch(a, sets, args, id, req);
    }
    SetWhereIsPatched(rows, Update(sets, |args| + 1), args + [Id(id)], id, req);
  }

  // The four checks of the request
  method CollectSets(req: UpdateAgentRequest) returns (sets: seq<Piece>, args: seq<Arg>)
    ensures Lists(sets, args, Supplied(req))
  {
    sets, args := [], [];
    ghost var given: seq<(Column, Arg)> := [];
    if req.displayName.Some? {
      var idx := |args| + 1;
      args := args + [Text(req.displayName.value)];
      sets := sets + [Assign(DisplayName, idx)];
    }
    given := Grow(given, DisplayName, TextOf(req.displayName));
    assert Lists(sets, args, given);
    if req.description.Some? {
      var idx := |args| + 1;
      args := args + [Text(req.description.value)];
      sets := sets + [Assign(Description, idx)];
    }
    given := Grow(given, Description, TextOf(req.description));
    assert Lists(sets, args, given);
    if req.personality.Some? {
      var idx := |args| + 1;
      args := args + [Json(req.personality.value)];
      sets := sets + [Assign(Personality, idx)];
    }
    given := Grow(given, Personality, JsonOf(req.personality));
    assert Lists(sets, args, given);
    if req.active.Some? {
      var idx := |args| + 1;
      args := args + [Flag(req.active.value)];
      sets := sets + [Assign(Active, idx)];
    }
    given := Grow(given, Active, FlagOf(req.active));
  }

  /** The query builder of UpdateAgent. For every subset of supplied fields the text uses the
      placeholders $1 to $n and running it on any rows patches the supplied fields of the agent
      with that id and nothing else. No fields, no query. */
  method BuildUpdate(id: Uuid, req: UpdateAgentRequest) returns (query: seq<Piece>, args: seq<Arg>)
    ensures Empty(req) <==> query == []
    ensures !Empty(req) ==> forall rows :: Exec(query, args, rows) == Some(Patched(rows, id, req))
  {
    var sets;
    sets, args := CollectSets(req);
    SuppliedIsTyped(req);
    if |sets| == 0 {
      return [], [];
    }

    query := [];
    for i := 0 to |sets|
      invariant query == Joined(sets[..i])
    {
      assert sets[..i + 1][..i] == sets[..i];
      if i > 0 {
        query := query + [Comma];
      }
      query := query + [sets[i]];
    }
    assert sets[..|sets|] == sets;
    forall rows
      ensures Exec(query + [WhereId(|args| + 1)], args + [Id(id)], rows) == Some(Patched(rows, id, req))
    {
      BuiltRuns(rows, sets, args, id, req);
    }
    var idx := |args| + 1;
    args := args + [Id(id)];
    query := query + [WhereId(idx)];
  }
}
