/**
 * The handlers as the program runs them: a mux filled by FromConfig, a store
 * object, and one method per handler writing into the response recorder.
 * Each method is proved to leave exactly the exchange HandlerSpec describes.
 */
module Server {
  import opened Wrappers
  import opened Todos
  import opened PatchDecoder
  import opened Store
  import opened Http
  import opened HandlerSpec

  /** http.ServeMux: the routes in the order they were registered. */
  class Mux {
    var routes: seq<Route>

    /** http.NewServeMux. */
    constructor ()
      ensures routes == []
    {
      routes := [];
    }

    /** HandleFunc: one more route. */
    method HandleFunc(r: Route)
      modifies this
      ensures routes == old(routes) + [r]
    {
      routes := routes + [r];
    }
  }

  /** The service: its generation, its mux and its store. */
  class Handler {
    const version: Version
    const mux: Mux
    const db: DB

    ghost predicate Valid()
      reads this, mux, db
    {
      mux.routes == Routes(version) && db.Valid()
    }

    /** FromConfig: opens the store and registers the routes; only the current service registers PATCH. */
    constructor FromConfig(version: Version, initial: map<int, Todo>)
      requires Keyed(initial)
      ensures Valid() && this.version == version && db.rows == initial
      ensures fresh(mux) && fresh(db)
    {
      var store := new DB(initial);
      var m := new Mux();
      m.HandleFunc(HealthRoute);
      m.HandleFunc(ListRoute);
      m.HandleFunc(GetRoute);
      m.HandleFunc(PutRoute);
      if version.Current? {
        m.HandleFunc(PatchRoute);
      }
      m.HandleFunc(DeleteRoute);
      this.version := version;
      mux := m;
      db := store;
    }

    /** writeJSON: the JSON content type, the request id from the context, then the encoded value. */
    method WriteJSON(w: Recorder, ctx: Option<string>, body: Body)
      requires w.Snapshot() == Untouched && ctx.Some?
      modifies w
      ensures w.Snapshot() == JsonResponse(ctx.value, body)
    {
      w.SetHeader("Content-Type", ApplicationJson);
      w.SetHeader(RequestIdHeader, ctx.value);
      w.WriteBody(body);
    }

    /** insert (PUT /todos/{id}). */
    method Insert(w: Recorder, req: Request, rawId: string, driver: Driver)
      requires Valid() && w.Snapshot() == Untouched
      modifies w, db
      ensures Valid()
      ensures Exchange(w.Snapshot(), db.rows) == InsertSpec(version, req, rawId, old(db.rows), driver)
    {
      var contentType := ContentTypeError(version, req.headers);
      if contentType.Some? {
        w.Error(contentType.value, StatusBadRequest);
        return;
      }
      var id := FromPathTodoId(rawId);
      if id.Err? {
        w.Error(id.error, StatusBadRequest);
        return;
      }
      var todo := DecodeTodo(req.body);
      if todo.None? {
        w.Error(DecodeFailureMessage, StatusBadRequest);
        return;
      }
      if id.value != todo.value.id {
        w.Error(MismatchMessage(id.value, todo.value.id), StatusBadRequest);
        return;
      }
      var err := db.Insert(todo.value, driver);
      if err.Some? {
        w.Error(InternalMessage(version, PutOne, id.value), StatusInternalServerError);
      }
    }

    /** patch (PATCH /todos/{id}, current service only). */
    method Patch(w: Recorder, req: Request, rawId: string, driver: Driver)
      requires Valid() && w.Snapshot() == Untouched && version.Current?
      modifies w, db
      ensures Valid()
      ensures Exchange(w.Snapshot(), db.rows) == PatchSpec(version.typing, req, rawId, old(db.rows), driver)
    {
      var contentType := AssertHeaderValueIs(req.headers, "Content-Type", ApplicationJson);
      if contentType.Some? {
        w.Error(contentType.value, StatusBadRequest);
        return;
      }
      var id := FromPathTodoId(rawId);
      if id.Err? {
        w.Error(id.error, StatusBadRequest);
        return;
      }
      var patch, decodeErr := UnmarshalJSON(version.typing, NewTodoPatch(), req.body);
      if decodeErr.Some? {
        w.Error(decodeErr.value, StatusBadRequest);
        return;
      }
      if id.value != patch.id {
        w.Error(MismatchMessage(id.value, patch.id), StatusBadRequest);
        return;
      }
      DecodeKeepsIdRecord(version.typing, NewTodoPatch(), req.body);
      var err := db.Patch(patch, driver);
      if err.Some? {
        if err.value == NoFieldsToUpdate {
          w.Error(Message(err.value), StatusBadRequest);
          return;
        }
        w.Error(StatusText(StatusInternalServerError), StatusInternalServerError);
      }
    }

    /** get (GET /todos/{id}): the row as JSON, its not-found text with 404, or 500. */
    method Get(w: Recorder, ctx: Option<string>, rawId: string, driver: Driver)
      requires Valid() && w.Snapshot() == Untouched && ctx.Some?
      modifies w
      ensures Exchange(w.Snapshot(), db.rows) == GetSpec(version, rawId, db.rows, ctx.value, driver)
    {
      var id := FromPathTodoId(rawId);
      if id.Err? {
        w.Error(id.error, StatusBadRequest);
        return;
      }
      var todo := db.Get(id.value, driver);
      if todo.Err? {
        if todo.error.NotFound? {
          w.Error(Message(todo.error), StatusNotFound);
          return;
        }
        w.Error(InternalMessage(version, GetOne, id.value), StatusInternalServerError);
        return;
      }
      WriteJSON(w, ctx, JsonTodo(todo.value));
    }

    /** getAll (GET /todos): every row as JSON, `null` when none was scanned, or 500. */
    method GetAll(w: Recorder, ctx: Option<string>, driver: Driver)
      requires Valid() && w.Snapshot() == Untouched && ctx.Some?
      modifies w
      ensures Exchange(w.Snapshot(), db.rows) == ListSpec(version, db.rows, ctx.value, driver)
    {
      var todos := db.GetAll(driver);
      if todos.Err? {
        w.Error(InternalMessage(version, ListAll, 0), StatusInternalServerError);
        return;
      }
      var body := if |todos.value| == 0 then JsonNull else JsonTodos(multiset(todos.value));
      WriteJSON(w, ctx, body);
    }

    /** delete (DELETE /todos/{id}). */
    method Delete(w: Recorder, rawId: string, driver: Driver)
      requires Valid() && w.Snapshot() == Untouched
      modifies w, db
      ensures Valid()
      ensures Exchange(w.Snapshot(), db.rows) == DeleteSpec(version, rawId, old(db.rows), driver)
    {
      var id := FromPathTodoId(rawId);
      if id.Err? {
        w.Error(id.error, StatusBadRequest);
        return;
      }
      var err := db.Delete(id.value, driver);
      if err.Some? {
        w.Error(InternalMessage(version, DeleteOne, id.value), StatusInternalServerError);
      }
    }

    /**
     * ServeHTTP: the mux picks the route; a wrapped route first gets the
     * generator's request id into its context. `handled` is false when no
     * route fits and the mux answers by itself.
     */
    method ServeHTTP(w: Recorder, req: Request, generated: string, driver: Driver) returns (handled: bool)
      requires Valid() && w.Snapshot() == Untouched
      modifies w, db
      ensures Valid()
      ensures var s := Serve(version, req, old(db.rows), generated, driver);
        handled == s.Some? && (handled ==> Exchange(w.Snapshot(), db.rows) == s.value)
      ensures !handled ==> w.Snapshot() == Untouched && db.rows == old(db.rows)
    {
      var found := Resolve(mux.routes, req.verb, req.path);
      if found.None? {
        return false;
      }
      var m := found.value;
      ResolveFinds(mux.routes, req.verb, req.path);
      PatchRouteIsCurrent(version);
      OnlyHealthUnwrapped(version);
      var ctx: Option<string> := if m.route.wrapped then Some(generated) else None;
      match m.route.action {
        case Health =>
        case ListAll => GetAll(w, ctx, driver);
        case GetOne => Get(w, ctx, m.rawId, driver);
        case PutOne => Insert(w, req, m.rawId, driver);
        case PatchOne => Patch(w, req, m.rawId, driver);
        case DeleteOne => Delete(w, m.rawId, driver);
      }
      handled := true;
    }
  }
}
