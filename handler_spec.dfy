/**
 * What the HTTP handlers of both generations do, as functions of the request,
 * the table, the request id the generator produced and the driver outcome:
 * the route table, the check sequence of each handler with its status codes
 * and messages, and the table afterwards.
 */
module HandlerSpec {
  import opened Wrappers
  import opened Json
  import opened Decimal
  import opened Todos
  import opened PatchDecoder
  import opened UpdateQuery
  import opened Store
  import opened Http

  /** The older service (internal/handler over internal/db), or the current one with its patch typing. */
  datatype Version = Legacy | Current(typing: Typing)

  datatype Action = Health | ListAll | GetOne | PutOne | PatchOne | DeleteOne

  /** A ServeMux pattern's path: a fixed path, or a prefix followed by one `{id}` segment. */
  datatype Pattern = Exact(path: string) | WithId(prefix: string)

  /** A registered route: method, path pattern, handler, and whether withBaseMiddleware wraps it. */
  datatype Route = Route(verb: string, pattern: Pattern, action: Action, wrapped: bool)

  /** A resolved request: the route and the text of its `{id}` segment ("" for a fixed path). */
  datatype Match = Match(route: Route, rawId: string)

  /** A handled request: the response left in the writer and the table afterwards. */
  datatype Exchange = Exchange(response: Response, rows: map<int, Todo>)

  const ItemPrefix: string := "/todos/"

  const HealthRoute: Route := Route("GET", Exact("/health"), Health, false)
  const ListRoute: Route := Route("GET", Exact("/todos"), ListAll, true)
  const GetRoute: Route := Route("GET", WithId(ItemPrefix), GetOne, true)
  const PutRoute: Route := Route("PUT", WithId(ItemPrefix), PutOne, true)
  const PatchRoute: Route := Route("PATCH", WithId(ItemPrefix), PatchOne, true)
  const DeleteRoute: Route := Route("DELETE", WithId(ItemPrefix), DeleteOne, true)

  /** The routes FromConfig registers, in order; the older service has no PATCH route. */
  function Routes(v: Version): seq<Route> {
    [HealthRoute, ListRoute, GetRoute, PutRoute]
    + (if v.Current? then [PatchRoute] else [])
    + [DeleteRoute]
  }

  /** The `{id}` text a path gives a pattern ("" for a fixed path), if the path fits it. */
  function PathMatch(p: Pattern, path: string): Option<string> {
    match p
    case Exact(s) => if path == s then Some("") else None
    case WithId(prefix) =>
      if |prefix| < |path| && path[..|prefix|] == prefix && '/' !in path[|prefix|..] then
        Some(path[|prefix|..])
      else None
  }

  /** The first route, in registration order, whose method and pattern fit the request. */
  function Resolve(routes: seq<Route>, verb: string, path: string): Option<Match> {
    if routes == [] then None
    else if routes[0].verb == verb && PathMatch(routes[0].pattern, path).Some? then
      Some(Match(routes[0], PathMatch(routes[0].pattern, path).value))
    else Resolve(routes[1..], verb, path)
  }

  // ---- the checks and their messages ----

  function HeaderMessage(header: string, got: string, value: string): string {
    "invalid header `" + header + "` value: got `" + got + "`, use `" + value + "`"
  }

  /** assertHeaderValueIs: no error exactly when the header holds the value. */
  function AssertHeaderValueIs(headers: map<string, string>, header: string, value: string): Option<string> {
    var got := HeaderGet(headers, header);
    if got != value then Some(HeaderMessage(header, got, value)) else None
  }

  /** The text each generation gives a wrong Content-Type. */
  function ContentTypeMessage(v: Version, got: string): string {
    match v
    case Current(_) => HeaderMessage("Content-Type", got, ApplicationJson)
    case Legacy => "invalid content type: `" + got + "`, use `application/json`"
  }

  /** The content-type check of PUT (and of PATCH in the current service). */
  function ContentTypeError(v: Version, headers: map<string, string>): Option<string> {
    match v
    case Current(_) => AssertHeaderValueIs(headers, "Content-Type", ApplicationJson)
    case Legacy =>
      var got := HeaderGet(headers, "Content-Type");
      if got != ApplicationJson then Some(ContentTypeMessage(v, got)) else None
  }

  /** fromPathTodoID: strconv.Atoi of the `{id}` text, or the invalid-id message quoting it. */
  function FromPathTodoId(rawId: string): Result<int, string> {
    match Atoi(rawId)
    case Some(id) => Ok(id)
    case None => Err("invalid id: `" + rawId + "`")
  }

  function MismatchMessage(pathId: int, bodyId: int): string {
    "id in path `" + IntToDecimal(pathId) + "` and body `" + IntToDecimal(bodyId) + "` do not match"
  }

  const DecodeFailureMessage: string := "failed to decode todo body"

  /** The 500 text: the status text in the current service, a per-handler text in the older one. */
  function InternalMessage(v: Version, a: Action, id: int): string {
    match v
    case Current(_) => StatusText(StatusInternalServerError)
    case Legacy =>
      match a
      case DeleteOne => "failed to delete todo with id `" + IntToDecimal(id) + "`"
      case PutOne => "failed to insert todo"
      case ListAll => "failed to get todos"
      case GetOne => "failed to get todo with id `" + IntToDecimal(id) + "`"
      case _ => StatusText(StatusInternalServerError)
  }

  function Reject(msg: string, code: int, rows: map<int, Todo>): Exchange {
    Exchange(ErrorResponse(msg, code), rows)
  }

  // ---- the handlers ----

  /** insert: content type, path id, body decode, id agreement, then INSERT OR REPLACE. */
  function InsertSpec(v: Version, req: Request, rawId: string, rows: map<int, Todo>, driver: Driver): Exchange {
    match ContentTypeError(v, req.headers)
    case Some(msg) => Reject(msg, StatusBadRequest, rows)
    case None =>
      match FromPathTodoId(rawId)
      case Err(msg) => Reject(msg, StatusBadRequest, rows)
      case Ok(id) =>
        match DecodeTodo(req.body)
        case None => Reject(DecodeFailureMessage, StatusBadRequest, rows)
        case Some(todo) =>
          if id != todo.id then Reject(MismatchMessage(id, todo.id), StatusBadRequest, rows)
          else match Failure(driver)
            case Some(_) => Reject(InternalMessage(v, PutOne, id), StatusInternalServerError, rows)
            case None => Exchange(Untouched, rows[todo.id := todo])
  }

  /** patch (current service only): content type, path id, patch decode, id agreement, then DB.Patch. */
  function PatchSpec(typing: Typing, req: Request, rawId: string, rows: map<int, Todo>, driver: Driver): Exchange {
    match AssertHeaderValueIs(req.headers, "Content-Type", ApplicationJson)
    case Some(msg) => Reject(msg, StatusBadRequest, rows)
    case None =>
      match FromPathTodoId(rawId)
      case Err(msg) => Reject(msg, StatusBadRequest, rows)
      case Ok(id) =>
        match DecodePatch(typing, NewTodoPatch(), req.body)
        case Err(msg) => Reject(msg, StatusBadRequest, rows)
        case Ok(p) =>
          if id != p.id then Reject(MismatchMessage(id, p.id), StatusBadRequest, rows)
          else
            DecodeKeepsIdRecord(typing, NewTodoPatch(), req.body);
            match PatchOutcome(p, driver)
            case Some(NoFieldsToUpdate) => Reject(Message(NoFieldsToUpdate), StatusBadRequest, rows)
            case Some(_) => Reject(StatusText(StatusInternalServerError), StatusInternalServerError, rows)
            case None => Exchange(Untouched, PatchRows(rows, p))
  }

  /** get: path id, then the row as JSON, 404 with the not-found text, or 500. */
  function GetSpec(v: Version, rawId: string, rows: map<int, Todo>, requestId: string, driver: Driver): Exchange {
    match FromPathTodoId(rawId)
    case Err(msg) => Reject(msg, StatusBadRequest, rows)
    case Ok(id) =>
      match Lookup(rows, id, driver)
      case Ok(todo) => Exchange(JsonResponse(requestId, JsonTodo(todo)), rows)
      case Err(NotFound(missing)) => Reject(Message(NotFound(missing)), StatusNotFound, rows)
      case Err(_) => Reject(InternalMessage(v, GetOne, id), StatusInternalServerError, rows)
  }

  /** The list body: JSON `null` when no row was scanned (a nil slice), else every row. */
  function ListBody(rows: map<int, Todo>): Body {
    var items := multiset(Stored(rows));
    if |items| == 0 then JsonNull else JsonTodos(items)
  }

  /** getAll: every row as JSON, or 500. */
  function ListSpec(v: Version, rows: map<int, Todo>, requestId: string, driver: Driver): Exchange {
    match Failure(driver)
    case Some(_) => Reject(InternalMessage(v, ListAll, 0), StatusInternalServerError, rows)
    case None => Exchange(JsonResponse(requestId, ListBody(rows)), rows)
  }

  /** delete: path id, then DELETE, which succeeds whether or not the row exists. */
  function DeleteSpec(v: Version, rawId: string, rows: map<int, Todo>, driver: Driver): Exchange {
    match FromPathTodoId(rawId)
    case Err(msg) => Reject(msg, StatusBadRequest, rows)
    case Ok(id) =>
      match Failure(driver)
      case Some(_) => Reject(InternalMessage(v, DeleteOne, id), StatusInternalServerError, rows)
      case None => Exchange(Untouched, rows - {id})
  }

  /** Running the resolved route's handler; health writes nothing. */
  function Dispatch(v: Version, m: Match, req: Request, rows: map<int, Todo>, requestId: string, driver: Driver): Exchange
    requires m.route.action == PatchOne ==> v.Current?
  {
    match m.route.action
    case Health => Exchange(Untouched, rows)
    case ListAll => ListSpec(v, rows, requestId, driver)
    case GetOne => GetSpec(v, m.rawId, rows, requestId, driver)
    case PutOne => InsertSpec(v, req, m.rawId, rows, driver)
    case PatchOne => PatchSpec(v.typing, req, m.rawId, rows, driver)
    case DeleteOne => DeleteSpec(v, m.rawId, rows, driver)
  }

  /**
   * Handler.ServeHTTP: the mux resolves the route and runs its handler; a
   * request no route fits is left to the mux's own 404/405 replies (None).
   */
  function Serve(v: Version, req: Request, rows: map<int, Todo>, requestId: string, driver: Driver): Option<Exchange> {
    match Resolve(Routes(v), req.verb, req.path)
    case None => None
    case Some(m) =>
      ResolveFinds(Routes(v), req.verb, req.path);
      PatchRouteIsCurrent(v);
      Some(Dispatch(v, m, req, rows, requestId, driver))
  }

  // ---- the route table ----

  /** A resolved route is a registered one whose method and pattern fit the request. */
  lemma {:induction false} ResolveFinds(routes: seq<Route>, verb: string, path: string)
    ensures var r := Resolve(routes, verb, path);
      r.Some? ==> r.value.route in routes && r.value.route.verb == verb
                  && PathMatch(r.value.route.pattern, path) == Some(r.value.rawId)
  {
    if routes != [] && !(routes[0].verb == verb && PathMatch(routes[0].pattern, path).Some?) {
      ResolveFinds(routes[1..], verb, path);
    }
  }

  /** Only the current service registers a PATCH handler. */
  lemma PatchRouteIsCurrent(v: Version)
    ensures forall r | r in Routes(v) :: r.action == PatchOne ==> v.Current?
    ensures forall r | r in Routes(v) :: r.action == PatchOne <==> r.verb == "PATCH"
  {
  }

  /** Every route but GET /health runs inside withBaseMiddleware, which assigns the request id. */
  lemma OnlyHealthUnwrapped(v: Version)
    ensures forall r | r in Routes(v) :: !r.wrapped <==> r.action == Health
  {
  }

  /** The older service answers no PATCH request; the mux replies for it. */
  lemma LegacyHasNoPatch(req: Request, rows: map<int, Todo>, requestId: string, driver: Driver)
    requires req.verb == "PATCH"
    ensures Serve(Legacy, req, rows, requestId, driver) == None
  {
    ResolveFinds(Routes(Legacy), req.verb, req.path);
  }

  /** The path of one todo: the prefix and the id's decimal text. */
  function ItemPath(id: int): string {
    ItemPrefix + IntToDecimal(id)
  }

  /** Resolution tries the first route, then the rest. */
  lemma ResolveStep(r: Route, rest: seq<Route>, verb: string, path: string)
    ensures Resolve([r] + rest, verb, path)
         == if r.verb == verb && PathMatch(r.pattern, path).Some? then Some(Match(r, PathMatch(r.pattern, path).value))
            else Resolve(rest, verb, path)
  {
    assert ([r] + rest)[1..] == rest;
  }

  /** Resolution over a table, one registered route after another. */
  lemma ResolveRoutes(v: Version, verb: string, path: string)
    ensures Resolve(Routes(v), verb, path)
         == Resolve([HealthRoute], verb, path)
              .OrElse(Resolve([ListRoute], verb, path))
              .OrElse(Resolve([GetRoute], verb, path))
              .OrElse(Resolve([PutRoute], verb, path))
              .OrElse(if v.Current? then Resolve([PatchRoute], verb, path) else None)
              .OrElse(Resolve([DeleteRoute], verb, path))
  {
    var tail := (if v.Current? then [PatchRoute] else []) + [DeleteRoute];
    assert Routes(v) == [HealthRoute] + ([ListRoute] + ([GetRoute] + ([PutRoute] + tail)));
    ResolveStep(HealthRoute, [ListRoute] + ([GetRoute] + ([PutRoute] + tail)), verb, path);
    ResolveStep(ListRoute, [GetRoute] + ([PutRoute] + tail), verb, path);
    ResolveStep(GetRoute, [PutRoute] + tail, verb, path);
    ResolveStep(PutRoute, tail, verb, path);
    ResolveStep(DeleteRoute, [], verb, path);
    ResolveStep(HealthRoute, [], verb, path);
    ResolveStep(ListRoute, [], verb, path);
    ResolveStep(GetRoute, [], verb, path);
    ResolveStep(PutRoute, [], verb, path);
    ResolveStep(PatchRoute, [], verb, path);
    if v.Current? {
      ResolveStep(PatchRoute, [DeleteRoute], verb, path);
    } else {
      assert tail == [DeleteRoute];
    }
  }

  /** `/todos/<id>` fits the item pattern with the id's text, and neither fixed path. */
  lemma ItemPathMatches(id: int)
    ensures PathMatch(WithId(ItemPrefix), ItemPath(id)) == Some(IntToDecimal(id))
    ensures PathMatch(Exact("/health"), ItemPath(id)) == None
    ensures PathMatch(Exact("/todos"), ItemPath(id)) == None
  {
    var path := ItemPath(id);
    var d := IntToDecimal(id);
    DecimalCharacters(id);
    assert path[..|ItemPrefix|] == ItemPrefix && path[|ItemPrefix|..] == d;
    assert '/' !in d;
    assert path[1] == 't' && "/health"[1] == 'h';
  }

  /** `/todos/<id>` reaches the item handler registered for the method, with the id's text as `{id}`. */
  lemma ItemPathResolves(v: Version, verb: string, id: int)
    requires verb in {"GET", "PUT", "DELETE"} || (verb == "PATCH" && v.Current?)
    ensures var r := Resolve(Routes(v), verb, ItemPath(id));
      && r.Some? && r.value.rawId == IntToDecimal(id)
      && r.value.route.action == (if verb == "GET" then GetOne else if verb == "PUT" then PutOne
                                  else if verb == "PATCH" then PatchOne else DeleteOne)
  {
    ItemPathMatches(id);
    ResolveRoutes(v, verb, ItemPath(id));
  }

  /**
   * No two registered routes fit the same request, so taking the first fit
   * agrees with ServeMux's choice of the most specific pattern.
   */
  lemma RouteFitsAlone(v: Version, r: Route, verb: string, path: string)
    requires r in Routes(v) && r.verb == verb && PathMatch(r.pattern, path).Some?
    ensures Resolve(Routes(v), verb, path) == Some(Match(r, PathMatch(r.pattern, path).value))
  {
    ResolveRoutes(v, verb, path);
    if PathMatch(WithId(ItemPrefix), path).Some? {
      assert path[..|ItemPrefix|] == ItemPrefix;
      assert path != "/health" by { assert "/health"[1] != ItemPrefix[1]; }
      assert path != "/todos";
    }
  }

  /** The two fixed paths reach health and the list handler. */
  lemma FixedPathsResolve(v: Version)
    ensures Resolve(Routes(v), "GET", "/health") == Some(Match(HealthRoute, ""))
    ensures Resolve(Routes(v), "GET", "/todos") == Some(Match(ListRoute, ""))
  {
    ResolveRoutes(v, "GET", "/health");
    ResolveRoutes(v, "GET", "/todos");
  }

  // ---- the check sequence ----

  /** The current service's content-type text, as assertHeaderValueIs spells it. */
  lemma CurrentContentTypeText(got: string)
    ensures HeaderMessage("Content-Type", got, ApplicationJson)
         == "invalid header `Content-Type` value: got `" + got + "`, use `application/json`"
  {
    var a, b := "invalid header `", "` value: got `";
    var c, d := "`, use `", "`";
    Associative(a, "Content-Type", b);
    Associative(a + "Content-Type" + b, got, c);
    Associative(a + "Content-Type" + b + got + c, ApplicationJson, d);
  }

  /** The content-type check comes first: a PUT without exactly application/json is refused untouched. */
  lemma InsertContentTypeFirst(v: Version, req: Request, rawId: string, rows: map<int, Todo>, driver: Driver)
    requires HeaderGet(req.headers, "Content-Type") != ApplicationJson
    ensures InsertSpec(v, req, rawId, rows, driver)
         == Reject(ContentTypeMessage(v, HeaderGet(req.headers, "Content-Type")), StatusBadRequest, rows)
  {
  }

  /** The same for PATCH. */
  lemma PatchContentTypeFirst(typing: Typing, req: Request, rawId: string, rows: map<int, Todo>, driver: Driver)
    requires HeaderGet(req.headers, "Content-Type") != ApplicationJson
    ensures PatchSpec(typing, req, rawId, rows, driver)
         == Reject(ContentTypeMessage(Current(typing), HeaderGet(req.headers, "Content-Type")), StatusBadRequest, rows)
  {
  }

  /** A path id strconv.Atoi refuses is answered 400 with the text quoted, before the body or the store. */
  lemma InvalidPathId(v: Version, req: Request, rawId: string, rows: map<int, Todo>, requestId: string, driver: Driver)
    requires Atoi(rawId) == None
    ensures var e := Reject("invalid id: `" + rawId + "`", StatusBadRequest, rows);
      && GetSpec(v, rawId, rows, requestId, driver) == e
      && DeleteSpec(v, rawId, rows, driver) == e
      && (ContentTypeError(v, req.headers).None? ==> InsertSpec(v, req, rawId, rows, driver) == e)
      && (v.Current? && ContentTypeError(v, req.headers).None? ==> PatchSpec(v.typing, req, rawId, rows, driver) == e)
  {
  }

  /** Path id and body id must agree; otherwise 400 naming both, and nothing is written. */
  lemma IdMismatch(v: Version, req: Request, id: int, rows: map<int, Todo>, driver: Driver)
    requires ContentTypeError(v, req.headers).None? && MinInt <= id <= MaxInt
    ensures var t := DecodeTodo(req.body);
      t.Some? && t.value.id != id ==>
        InsertSpec(v, req, IntToDecimal(id), rows, driver) == Reject(MismatchMessage(id, t.value.id), StatusBadRequest, rows)
    ensures v.Current? ==> var p := DecodePatch(v.typing, NewTodoPatch(), req.body);
      p.Ok? && p.value.id != id ==>
        PatchSpec(v.typing, req, IntToDecimal(id), rows, driver) == Reject(MismatchMessage(id, p.value.id), StatusBadRequest, rows)
  {
    AtoiRoundTrip(id);
  }

  /** A PUT succeeds exactly when every check passes and the store accepts the row, which then replaces any old one. */
  lemma InsertSucceedsIff(v: Version, req: Request, rawId: string, rows: map<int, Todo>, driver: Driver)
    ensures var x := InsertSpec(v, req, rawId, rows, driver);
      x.response.status == StatusOK <==>
        && ContentTypeError(v, req.headers).None?
        && FromPathTodoId(rawId).Ok?
        && DecodeTodo(req.body).Some?
        && DecodeTodo(req.body).value.id == FromPathTodoId(rawId).value
        && driver.Healthy?
    ensures var x := InsertSpec(v, req, rawId, rows, driver);
      x.response.status == StatusOK ==> x.response == Untouched && x.rows == rows[DecodeTodo(req.body).value.id := DecodeTodo(req.body).value]
    ensures var x := InsertSpec(v, req, rawId, rows, driver);
      x.response.status != StatusOK ==> x.rows == rows
    ensures ContentTypeError(v, req.headers).None? && FromPathTodoId(rawId).Ok? && DecodeTodo(req.body).None? ==>
      InsertSpec(v, req, rawId, rows, driver) == Reject(DecodeFailureMessage, StatusBadRequest, rows)
  {
  }

  /** A patch that decodes with nothing to set is refused 400 before the store, whatever the driver would do. */
  lemma PatchWithoutFields(typing: Typing, req: Request, id: int, rows: map<int, Todo>, driver: Driver)
    requires AssertHeaderValueIs(req.headers, "Content-Type", ApplicationJson).None?
    requires MinInt <= id <= MaxInt
    requires DecodePatch(typing, NewTodoPatch(), req.body).Ok?
    requires DecodePatch(typing, NewTodoPatch(), req.body).value.id == id
    requires !HasFields(DecodePatch(typing, NewTodoPatch(), req.body).value)
    ensures PatchSpec(typing, req, IntToDecimal(id), rows, driver) == Reject("no fields to update", StatusBadRequest, rows)
  {
    AtoiRoundTrip(id);
  }

  /** A patch with fields to set: 200 and the overlay when the store runs it, 500 with the status text when it fails. */
  lemma PatchOutcomes(typing: Typing, req: Request, id: int, rows: map<int, Todo>, driver: Driver)
    requires AssertHeaderValueIs(req.headers, "Content-Type", ApplicationJson).None?
    requires MinInt <= id <= MaxInt
    requires DecodePatch(typing, NewTodoPatch(), req.body).Ok?
    requires DecodePatch(typing, NewTodoPatch(), req.body).value.id == id
    requires HasFields(DecodePatch(typing, NewTodoPatch(), req.body).value)
    ensures var p := DecodePatch(typing, NewTodoPatch(), req.body).value;
      IdRecordOk(p.data) &&
      PatchSpec(typing, req, IntToDecimal(id), rows, driver)
        == if driver.Healthy? then Exchange(Untouched, PatchRows(rows, p))
           else Reject("Internal Server Error", StatusInternalServerError, rows)
  {
    AtoiRoundTrip(id);
    DecodeKeepsIdRecord(typing, NewTodoPatch(), req.body);
  }

  /** GET of one todo: 200 with the row, 404 with its not-found text, or 500 with each generation's text. */
  lemma GetOutcomes(v: Version, id: int, rows: map<int, Todo>, requestId: string, driver: Driver)
    requires MinInt <= id <= MaxInt
    ensures var x := GetSpec(v, IntToDecimal(id), rows, requestId, driver);
      && x.rows == rows
      && (driver.Healthy? && id in rows ==> x.response == JsonResponse(requestId, JsonTodo(rows[id])))
      && (driver.Healthy? && id !in rows ==>
            x.response == ErrorResponse("todo `" + IntToDecimal(id) + "` not found", StatusNotFound))
      && (driver.Failing? ==> x.response == ErrorResponse(
            if v.Legacy? then "failed to get todo with id `" + IntToDecimal(id) + "`" else "Internal Server Error",
            StatusInternalServerError))
  {
    AtoiRoundTrip(id);
  }

  /** A DELETE store failure is a 500 with each generation's text; success writes nothing. */
  lemma DeleteOutcomes(v: Version, id: int, rows: map<int, Todo>, driver: Driver)
    requires MinInt <= id <= MaxInt
    ensures var x := DeleteSpec(v, IntToDecimal(id), rows, driver);
      && (driver.Healthy? ==> x == Exchange(Untouched, rows - {id}))
      && (driver.Failing? ==> x == Reject(
            if v.Legacy? then "failed to delete todo with id `" + IntToDecimal(id) + "`" else "Internal Server Error",
            StatusInternalServerError, rows))
  {
    AtoiRoundTrip(id);
  }

  /** The list handler's other 500 texts, and the older service's insert text. */
  lemma InternalMessages(v: Version, id: int)
    ensures InternalMessage(v, ListAll, id) == if v.Legacy? then "failed to get todos" else "Internal Server Error"
    ensures InternalMessage(v, PutOne, id) == if v.Legacy? then "failed to insert todo" else "Internal Server Error"
  {
  }

  // ---- whole requests ----

  /** What the handlers promise of a response's headers: X-Request-ID, when set, is the request's id on a JSON reply. */
  predicate CarriesRequestId(r: Response, requestId: string) {
    && (RequestIdHeader in r.headers ==>
          r.headers[RequestIdHeader] == requestId && HeaderGet(r.headers, "Content-Type") == ApplicationJson)
    && (HeaderGet(r.headers, "Content-Type") == ApplicationJson ==>
          RequestIdHeader in r.headers && r.headers[RequestIdHeader] == requestId)
  }

  /** Only writeJSON sets X-Request-ID, and always with the JSON content type; http.Error sets neither. */
  lemma ResponsesCarryRequestId(requestId: string)
    ensures forall msg, code :: CarriesRequestId(ErrorResponse(msg, code), requestId)
    ensures forall body :: CarriesRequestId(JsonResponse(requestId, body), requestId)
    ensures CarriesRequestId(Untouched, requestId)
  {
    forall msg, code ensures CarriesRequestId(ErrorResponse(msg, code), requestId) {
      assert HeaderGet(ErrorResponse(msg, code).headers, "Content-Type") == TextPlain;
    }
  }

  /** A handler's exchange refuses without writing, keeps rows under their own ids and threads the request id. */
  predicate KeepsTable(x: Exchange, rows: map<int, Todo>, requestId: string) {
    && Keyed(x.rows)
    && (x.response.status != StatusOK ==> x.rows == rows)
    && CarriesRequestId(x.response, requestId)
  }

  lemma InsertKeepsTable(v: Version, req: Request, rawId: string, rows: map<int, Todo>, requestId: string, driver: Driver)
    requires Keyed(rows)
    ensures KeepsTable(InsertSpec(v, req, rawId, rows, driver), rows, requestId)
  {
    ResponsesCarryRequestId(requestId);
  }

  lemma PatchKeepsTable(typing: Typing, req: Request, rawId: string, rows: map<int, Todo>, requestId: string, driver: Driver)
    requires Keyed(rows)
    ensures KeepsTable(PatchSpec(typing, req, rawId, rows, driver), rows, requestId)
  {
    ResponsesCarryRequestId(requestId);
    match DecodePatch(typing, NewTodoPatch(), req.body)
    case Err(_) =>
    case Ok(p) =>
      DecodeKeepsIdRecord(typing, NewTodoPatch(), req.body);
  }

  lemma ReadsKeepTable(v: Version, rawId: string, rows: map<int, Todo>, requestId: string, driver: Driver)
    requires Keyed(rows)
    ensures KeepsTable(GetSpec(v, rawId, rows, requestId, driver), rows, requestId)
    ensures KeepsTable(ListSpec(v, rows, requestId, driver), rows, requestId)
    ensures KeepsTable(DeleteSpec(v, rawId, rows, driver), rows, requestId)
    ensures KeepsTable(Exchange(Untouched, rows), rows, requestId)
  {
    ResponsesCarryRequestId(requestId);
  }

  /** A refused request leaves the table as it was; every request keeps rows under their own ids. */
  lemma ServeKeepsTable(v: Version, req: Request, rows: map<int, Todo>, requestId: string, driver: Driver)
    requires Keyed(rows)
    ensures var r := Serve(v, req, rows, requestId, driver);
      r.Some? ==> KeepsTable(r.value, rows, requestId)
  {
    match Resolve(Routes(v), req.verb, req.path)
    case None =>
    case Some(m) =>
      ResolveFinds(Routes(v), req.verb, req.path);
      PatchRouteIsCurrent(v);
      match m.route.action
      case Health => ReadsKeepTable(v, m.rawId, rows, requestId, driver);
      case ListAll => ReadsKeepTable(v, m.rawId, rows, requestId, driver);
      case GetOne => ReadsKeepTable(v, m.rawId, rows, requestId, driver);
      case DeleteOne => ReadsKeepTable(v, m.rawId, rows, requestId, driver);
      case PutOne => InsertKeepsTable(v, req, m.rawId, rows, requestId, driver);
      case PatchOne => PatchKeepsTable(v.typing, req, m.rawId, rows, requestId, driver);
  }

  /** GET /health answers 200 with nothing written, whatever the request id or the store. */
  lemma HealthAnswers(v: Version, req: Request, rows: map<int, Todo>, requestId: string, driver: Driver)
    requires req.verb == "GET" && req.path == "/health"
    ensures Serve(v, req, rows, requestId, driver) == Some(Exchange(Untouched, rows))
  {
    FixedPathsResolve(v);
  }

  function ListRequest(): Request {
    Request("GET", "/todos", map[], Parsed(Null))
  }

  /** GET /todos on an empty table: 200 with `null`, which decodes to no todos. */
  lemma EmptyListIsNull(v: Version, requestId: string)
    ensures Serve(v, ListRequest(), map[], requestId, Healthy)
         == Some(Exchange(JsonResponse(requestId, JsonNull), map[]))
    ensures DecodedTodos(JsonNull) == Some(multiset{})
  {
    FixedPathsResolve(v);
    assert Stored(map[]) == {};
  }

  /** A successful list names every row exactly once. */
  lemma ListCountsRows(v: Version, rows: map<int, Todo>, requestId: string)
    requires Keyed(rows)
    ensures var r := Serve(v, ListRequest(), rows, requestId, Healthy);
      && r.Some? && r.value.response.status == StatusOK
      && DecodedTodos(r.value.response.body) == Some(multiset(Stored(rows)))
      && |DecodedTodos(r.value.response.body).value| == |rows|
  {
    FixedPathsResolve(v);
    ListingSize(rows);
  }

  function PutRequest(t: Todo): Request {
    Request("PUT", ItemPath(t.id), map["Content-Type" := ApplicationJson], Parsed(EncodeTodo(t)))
  }

  function GetRequest(id: int): Request {
    Request("GET", ItemPath(id), map[], Parsed(Null))
  }

  /** PUT of a todo and then GET of its id returns it, with the GET's request id. */
  lemma PutThenGet(v: Version, t: Todo, rows: map<int, Todo>, putId: string, getId: string)
    requires MinInt <= t.id <= MaxInt
    ensures Serve(v, PutRequest(t), rows, putId, Healthy) == Some(Exchange(Untouched, rows[t.id := t]))
    ensures Serve(v, GetRequest(t.id), rows[t.id := t], getId, Healthy)
         == Some(Exchange(JsonResponse(getId, JsonTodo(t)), rows[t.id := t]))
  {
    ItemPathResolves(v, "PUT", t.id);
    ItemPathResolves(v, "GET", t.id);
    AtoiRoundTrip(t.id);
    DecodeEncodedTodo(t);
  }

  /** One PUT into an empty table, then GET /todos lists exactly that todo. */
  lemma ListAfterOnePut(v: Version, t: Todo, putId: string, listId: string)
    requires MinInt <= t.id <= MaxInt
    ensures Serve(v, PutRequest(t), map[], putId, Healthy) == Some(Exchange(Untouched, map[t.id := t]))
    ensures Serve(v, ListRequest(), map[t.id := t], listId, Healthy)
         == Some(Exchange(JsonResponse(listId, JsonTodos(multiset{t})), map[t.id := t]))
  {
    PutThenGet(v, t, map[], putId, listId);
    FixedPathsResolve(v);
    ListingOfOne(t);
  }

  function DeleteRequest(id: int): Request {
    Request("DELETE", ItemPath(id), map[], Parsed(Null))
  }

  /** DELETE of an id never inserted is 200 with nothing written; a second DELETE changes nothing more. */
  lemma DeleteIdempotent(v: Version, id: int, rows: map<int, Todo>, first: string, second: string)
    requires MinInt <= id <= MaxInt
    ensures var once := Serve(v, DeleteRequest(id), rows, first, Healthy);
      && once == Some(Exchange(Untouched, rows - {id}))
      && Serve(v, DeleteRequest(id), rows - {id}, second, Healthy) == once
    ensures id !in rows ==> Serve(v, DeleteRequest(id), rows, first, Healthy) == Some(Exchange(Untouched, rows))
  {
    ItemPathResolves(v, "DELETE", id);
    AtoiRoundTrip(id);
    assert (rows - {id}) - {id} == rows - {id};
    if id !in rows {
      assert rows - {id} == rows;
    }
  }
}
