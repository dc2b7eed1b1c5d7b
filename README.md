# go-todo, modelled in Dafny

go-todo is a small HTTP service that keeps todos in a SQLite table `todos`
(`id`, `title`, `description`, `completed`). The client picks each todo's id
and puts it in the path, as in `PUT /todos/{id}`. The repository holds two
generations of the service:

- the current one is `internal/todos`. It has a store, a tri-state PATCH
  decoder, a dynamic `UPDATE` builder and handlers for GET, PUT, PATCH and
  DELETE;
- the older one is `internal/db` with `internal/handler`. It has no PATCH
  route and different error texts.

The model gives both generations one meaning:

- **Store** (`store.dfy`): a class `DB` holding the table as a
  `map<int, Todo>` keyed by id. Each SQL statement becomes its effect on that
  map. Whether the SQL driver succeeds or fails is a `Driver` parameter.
- **Patch decoding** (`patch_decoder.dfy`): `TodoPatch.UnmarshalJSON` over an
  abstract JSON value (`json.dfy`). For each field key it distinguishes
  absent, null and a value.
- **UPDATE builder** (`update_query.dfy`):
  - the method that assembles the query text and the argument list;
  - a reading of such a statement by the database engine;
  - proofs that the built statement has one argument per placeholder and
    applies exactly the reference patch `PatchRows`.
- **Handlers as functions** (`handler_spec.dfy`):
  - the route tables of both generations;
  - each handler's sequence of checks, with its status codes and messages;
  - the whole request `Serve(version, request, table, requestId, driver)`.
- **Handlers as objects** (`handlers.dfy`):
  - a `Mux` that `FromConfig` fills with routes;
  - a `Handler` whose methods write into a response `Recorder` (`http.dfy`)
    and change the store;
  - each method is proved to produce exactly the exchange that
    `handler_spec.dfy` describes.
- **Helpers**: `decimal.dfy` holds `fmt`'s `%d` and `strconv.Atoi`;
  `wrappers.dfy` holds Option and Result.

`Version = Legacy | Current(typing)` picks the generation. For the current
service, `typing` chooses how PATCH field values are read. `AsWritten` is the
code's `*string`/`*bool` type assertions. `Intended` is the reading the doc
comment describes. See Findings below.

Where the code and the service's description disagree, the model follows the
code:

- `GET /todos` on an empty table writes JSON `null`, because it encodes a
  nil slice. It does not write `[]`. A client decoding into a slice still
  gets zero todos.
- `X-Request-ID` is set only by `writeJSON`, so only the two GET handlers'
  200 responses carry it. Errors and the empty 200 of PUT, PATCH and DELETE
  do not.
- PATCH accepts a body with no `id` key. The decoded id stays 0, so it
  matches only path id 0. The UPDATE then binds NULL as its WHERE argument
  and changes nothing.
- A fractional PATCH id such as `1.5` is truncated to 1 for the path check.
  The UPDATE binds the raw 1.5, which matches no row.

## Model

| member | source | states |
|---|---|---|
| Decimal.IntToDecimal | internal/todos/handler.go:103 | `%d` text: non-empty, and it starts with '-' exactly for negative numbers |
| Decimal.NatToDecimal | internal/todos/sqlite.go:141 | `%d` of a natural number is non-empty digits with no leading zero |
| Decimal.Atoi | internal/todos/handler.go:228-235 | strconv.Atoi succeeds only with a value that fits 64 bits |
| Decimal.DigitsOfDecimal | internal/todos/sqlite.go:141 | the digits `%d` prints have the number's value |
| Decimal.DecimalRoundTrip | internal/todos/handler.go:230 | parsing what `%d` prints gives the number back |
| Decimal.AtoiRoundTrip | internal/todos/handler.go:228-235 | Atoi accepts the `%d` text of every 64-bit int, with its value |
| Decimal.DecimalInjective | internal/db/sqlite.go:65-67 | distinct ids print differently |
| Decimal.AtoiRejects | internal/todos/handler.go:230-233 | the empty text, a lone sign and text with a space are refused |
| Decimal.DecimalCharacters | internal/todos/handler.go:49 | `%d` text holds only '-' and digits, so it fits one `{id}` segment |
| Json.Truncate | internal/todos/sqlite.go:43 | `int(float64)` rounds toward zero, on both signs |
| Todos.NotFoundMessageNamesId | internal/todos/sqlite.go:140-142 | two not-found messages are equal exactly when their ids are |
| Todos.DecodeEncodedTodo | internal/todos/sqlite.go:85-90 | a Todo decoded from its own JSON encoding is the same Todo |
| Todos.DecodeTodoRejectsMistypedField | internal/todos/handler.go:131-135 | a string or fractional `id` fails the whole PUT body decode |
| PatchDecoder.UnmarshalJSON | internal/todos/sqlite.go:28-83 | filling the receiver key by key fails exactly when the decode function does, with its message, and otherwise yields its patch |
| PatchDecoder.FieldStates | internal/todos/sqlite.go:46-80 | in the intended reading: an absent key leaves its field unset, null sets "" or false, and a value sets that value; the raw map is kept |
| PatchDecoder.IdRules | internal/todos/sqlite.go:34-44 | a null id gives "id is required"; a non-number gives "id is not a float64"; a number is truncated; no id leaves 0 |
| PatchDecoder.DecodeSucceeds | internal/todos/sqlite.go:28-83 | an object body decodes exactly when its id is absent or a number and every field key holds null or, in the intended reading, a value of the field's type |
| PatchDecoder.MistypedFieldRefused | internal/todos/sqlite.go:46-80 | the first field key, in title, description, completed order, whose value the reading does not take fails the decode with that field's message |
| PatchDecoder.NumericTitleRefused | internal/todos/sqlite.go:51-54 | in the intended reading `"title": 5` is refused with "title is not a string" |
| PatchDecoder.NullBodyDecodesEmpty | internal/todos/sqlite.go:29-32 | a `null` body decodes to the empty patch |
| PatchDecoder.DecodeKeepsIdRecord | internal/todos/sqlite.go:34-44 | after a decode, data["id"] is absent or a number |
| PatchDecoder.AsWrittenOnlyResets | internal/todos/sqlite.go:46-80 | as written, a decode succeeds only if every field key present holds null |
| PatchDecoder.DocCommentExample | internal/todos/handler.go:72-83 | the doc comment's `{"id": 1, "title": "new title"}` is refused as written and sets the title as intended |
| PatchDecoder.TypingsAgreeOnResets | internal/todos/sqlite.go:46-80 | both readings decode an all-null-fields body the same way |
| UpdateQuery.AppendAssignments | internal/todos/sqlite.go:188-206 | the builder holds the prefix and each set column's `col = ?, ` in title, description, completed order; the args are their values in that order |
| UpdateQuery.BuildUpdate | internal/todos/sqlite.go:187-215 | fails with ErrNoFieldsToUpdate exactly when no field is set; otherwise the text is the rendered UPDATE and the args are the values then the raw data["id"], one per placeholder |
| UpdateQuery.TrailingIsJoined | internal/todos/sqlite.go:212-213 | the builder text is the ", "-joined assignments plus one trailing ", " |
| UpdateQuery.StripTrailing | internal/todos/sqlite.go:212-214 | dropping the last two characters and appending ` WHERE id = ?` gives the rendered statement |
| UpdateQuery.SegmentTexts | internal/todos/sqlite.go:193-206 | the three appended literals are each column's assignment plus ", " |
| UpdateQuery.JoinedPlaceholders | internal/todos/sqlite.go:193-206 | the joined assignments hold one `?` per set column |
| UpdateQuery.RenderedPlaceholders | internal/todos/sqlite.go:212-215 | the statement holds one `?` per set column plus the WHERE one |
| UpdateQuery.ParseJoined | internal/todos/sqlite.go:193-213 | the joined assignments read back as the columns they came from |
| UpdateQuery.ParseRendered | internal/todos/sqlite.go:217-223 | the engine reads the built statement as exactly the columns it was built from |
| UpdateQuery.JoinedOfParse | internal/todos/sqlite.go:193-213 | text read as a list of assignments is the joining of what was read |
| UpdateQuery.RenderedOfParse | internal/todos/sqlite.go:217-223 | text the engine reads as such an UPDATE is the rendering of its columns |
| UpdateQuery.PatchRows | internal/todos/sqlite.go:187-224 | the patched table has the same keys and keeps every row under its own id |
| UpdateQuery.AssignAllIsOverlay | internal/todos/sqlite.go:193-215 | binding the built columns to their args sets the patch's fields on a row and nothing else |
| UpdateQuery.ApplyIsPatch | internal/todos/sqlite.go:215-223 | the args fit the columns, and applying them is the reference patch |
| UpdateQuery.ExecutesAsPatch | internal/todos/sqlite.go:217-224 | executing the built statement yields exactly PatchRows |
| UpdateQuery.FractionalIdPatchesNothing | internal/todos/sqlite.go:43 | id 1.5 decodes to ID 1, but the UPDATE binds 1.5 and changes no row |
| UpdateQuery.MissingIdPatchesNothing | internal/todos/sqlite.go:215 | with no id key, the ID is 0, the WHERE argument is NULL and no row changes |
| UpdateQuery.ResetDescriptionAndCompleted | internal/todos/sqlite_test.go:150-201 | `{"id": 1, "description": null, "completed": null}` resets those two columns of row 1 and keeps its title |
| Store.ListingSize | internal/db/sqlite.go:92-110 | listing a keyed table gives as many rows as it has ids |
| Store.FreshPatchSetsNothing | internal/todos/sqlite.go:24-26 | a patch fresh from NewTodoPatch sets no field, so Patch refuses it with ErrNoFieldsToUpdate whatever the driver, and it changes no row |
| Store.ListingOfOne | internal/todos/sqlite_test.go:118-148 | a table with one row lists exactly that row |
| Store.LookupAfterInsert | internal/db/sqlite.go:69-90 | after an insert, Get of its id returns the inserted todo |
| Store.InsertReplaces | internal/todos/sqlite.go:144-147 | an insert replaces the whole row under its id, and every other id reads as before |
| Store.DeleteIsIdempotent | internal/todos/sqlite.go:149-152 | after Delete, Get of the id is NotFound and other ids are unchanged; deleting again, or deleting an absent id, changes nothing |
| Store.MissingRowMessage | internal/db/sqlite.go:79-90 | Get of an absent id fails with a message that names that id and no other |
| Store.RemoveRow | internal/todos/sqlite.go:175-181 | one scanned row leaves the rest of a keyed table to list |
| Store.DB.constructor | internal/todos/sqlite.go:106-138 | the store opens on the table as it is |
| Store.DB.Insert | internal/todos/sqlite.go:144-147 | `INSERT OR REPLACE`: on success the row under todo.id becomes todo; on failure nothing changes |
| Store.DB.Delete | internal/todos/sqlite.go:149-152 | on success the id's row is gone and nothing else changes; an absent id is no error |
| Store.DB.Get | internal/todos/sqlite.go:154-165 | the row, NotFound(id) exactly when the id is absent, or the driver's error |
| Store.DB.GetAll | internal/todos/sqlite.go:167-185 | the scan loop returns every row exactly once, as a multiset, or the driver's error |
| Store.DB.Patch | internal/todos/sqlite.go:187-225 | no field set gives ErrNoFieldsToUpdate and no change; otherwise the driver's error, or the table becomes PatchRows |
| Http.Recorder.constructor | internal/todos/handler_test.go:50 | a fresh recorder holds an untouched response |
| Http.Recorder.SetHeader | internal/todos/handler.go:184-185 | Header().Set replaces one header only |
| Http.Recorder.Error | internal/todos/handler.go:61 | http.Error replaces the headers and body; on an untouched writer it yields ErrorResponse |
| Http.Recorder.WriteBody | internal/todos/handler.go:187 | encoding writes the body and keeps status and headers |
| HandlerSpec.ResolveFinds | internal/todos/handler.go:47-52 | a resolved route is a registered one whose method and pattern fit the request |
| HandlerSpec.PatchRouteIsCurrent | internal/todos/handler.go:51 | only the current service registers the PATCH handler, and only under PATCH |
| HandlerSpec.OnlyHealthUnwrapped | internal/todos/handler.go:47-52 | every route except GET /health runs inside withBaseMiddleware |
| HandlerSpec.LegacyHasNoPatch | internal/handler/handler.go:43-47 | no PATCH request reaches an older handler |
| HandlerSpec.ResolveStep | internal/todos/handler.go:47-52 | resolution tries a route, then the routes after it |
| HandlerSpec.ResolveRoutes | internal/todos/handler.go:47-52 | resolving over the table is resolving over each registered route in turn |
| HandlerSpec.ItemPathMatches | internal/todos/handler.go:49-52 | `/todos/<id>` fits `/todos/{id}` with the id's text, and fits neither fixed path |
| HandlerSpec.ItemPathResolves | internal/todos/handler.go:49-52 | `/todos/<id>` reaches the item handler for GET, PUT, DELETE and, in the current service, PATCH |
| HandlerSpec.RouteFitsAlone | internal/todos/handler.go:47-52 | no two routes fit the same request, so first fit is the mux's choice |
| HandlerSpec.FixedPathsResolve | internal/handler/handler.go:43-44 | GET /health and GET /todos reach the health and list handlers in both generations |
| HandlerSpec.CurrentContentTypeText | internal/todos/handler.go:221-226 | the current text is ``invalid header `Content-Type` value: got `X`, use `application/json` `` |
| HandlerSpec.InsertContentTypeFirst | internal/handler/handler.go:69-73 | a PUT whose Content-Type is not exactly application/json gets 400 with its generation's text, and the table is kept |
| HandlerSpec.PatchContentTypeFirst | internal/todos/handler.go:85-88 | a PATCH with the wrong Content-Type gets 400 before anything else |
| HandlerSpec.InvalidPathId | internal/todos/handler.go:228-235 | an id Atoi refuses gives 400 ``invalid id: `raw` `` in GET, DELETE, PUT and PATCH, and the table is kept |
| HandlerSpec.IdMismatch | internal/todos/handler.go:102-105 | a body id that differs from the path id gives 400 naming both, and nothing is written |
| HandlerSpec.InsertSucceedsIff | internal/todos/handler.go:119-147 | PUT succeeds iff every check passes and the store accepts the row; on success the row is replaced; an undecodable body gets "failed to decode todo body" |
| HandlerSpec.PatchWithoutFields | internal/todos/handler.go:107-111 | a patch with nothing to set gets 400 "no fields to update", whatever the driver would do |
| HandlerSpec.PatchOutcomes | internal/todos/handler.go:107-116 | a patch with fields gets 200 and the overlay, or 500 "Internal Server Error" |
| HandlerSpec.GetOutcomes | internal/handler/handler.go:120-133 | GET gives 200 with the row and the request id, 404 with the not-found text, or 500 with its generation's text |
| HandlerSpec.DeleteOutcomes | internal/handler/handler.go:61-65 | DELETE gives 200 with nothing written, or 500 with its generation's text |
| HandlerSpec.InternalMessages | internal/handler/handler.go:93-105 | the older list and insert 500 texts; the current one is the status text |
| HandlerSpec.ResponsesCarryRequestId | internal/todos/handler.go:183-186 | X-Request-ID appears exactly on JSON responses, with the request's id |
| HandlerSpec.InsertKeepsTable | internal/todos/handler.go:119-147 | PUT keeps the table keyed, and a non-200 PUT keeps it as it was |
| HandlerSpec.PatchKeepsTable | internal/todos/handler.go:84-117 | the same for PATCH |
| HandlerSpec.ReadsKeepTable | internal/todos/handler.go:149-181 | GET, list and DELETE keep the table keyed, and change nothing when refused |
| HandlerSpec.ServeKeepsTable | internal/todos/handler.go:202-208 | every handled request keeps rows under their ids, leaves the table as it was when refused, and threads the generated request id |
| HandlerSpec.HealthAnswers | internal/todos/handler.go:56 | GET /health answers 200 with nothing written |
| HandlerSpec.EmptyListIsNull | internal/todos/handler_test.go:69-89 | GET /todos on an empty table gives 200 with `null`, which decodes to no todos |
| HandlerSpec.ListCountsRows | internal/todos/handler.go:149-158 | GET /todos lists every row exactly once |
| HandlerSpec.PutThenGet | internal/todos/handler.go:119-181 | PUT of a todo then GET of its id returns it, with the GET's request id |
| HandlerSpec.ListAfterOnePut | internal/db/sqlite_test.go:126-156 | one PUT into an empty table, then GET /todos lists exactly that todo |
| HandlerSpec.DeleteIdempotent | internal/todos/handler_test.go:45-54 | DELETE of an absent id is 200 with no change, and a second DELETE changes nothing more |
| Server.Mux.constructor | internal/todos/handler.go:45 | http.NewServeMux has no routes |
| Server.Mux.HandleFunc | internal/todos/handler.go:47 | HandleFunc appends one route |
| Server.Handler.FromConfig | internal/todos/handler.go:39-54 | the mux holds exactly the generation's route table and the store holds the given table |
| Server.Handler.WriteJSON | internal/handler/handler.go:136-145 | writeJSON on an untouched writer leaves JsonResponse with the context's request id |
| Server.Handler.Insert | internal/todos/handler.go:119-147 | the early-return check sequence leaves exactly InsertSpec's response and table |
| Server.Handler.Patch | internal/todos/handler.go:84-117 | leaves exactly PatchSpec's response and table |
| Server.Handler.Get | internal/todos/handler.go:160-181 | leaves exactly GetSpec's response; the table is untouched |
| Server.Handler.GetAll | internal/todos/handler.go:149-158 | the scanned rows, `null` for none, give exactly ListSpec's response |
| Server.Handler.Delete | internal/todos/handler.go:58-70 | leaves exactly DeleteSpec's response and table |
| Server.Handler.ServeHTTP | internal/todos/handler.go:29-31 | the request is handled iff a route fits; the response and table are then Serve's, and otherwise nothing is written |

## Left out

- Server.Handler.ServeHTTP: the mux's own 404 and 405 replies, redirects and percent-decoding are not modelled; a request no route fits is reported only as not handled. A HEAD request is also reported as not handled, although the program serves it through the matching GET route (without a body); the model does not capture that.
- Server.Handler.ServeHTTP: the request id is a parameter that stands for `RequestIDGenerator()`. Request contexts and their cancellation are not modelled; the context value is an `Option<string>` passed to the handlers that read it.
- Server.Handler.WriteJSON: JSON encoding is total. The 500 that `writeJSON` sends when encoding fails after the headers are set is not modelled.
- Http.Recorder.Error: it is modelled only on a writer with no body yet, which is the only way the handlers call it.
- Store.DB.constructor: `NewDB` opening SQLite, `CREATE TABLE` and preparing statements are foreign calls. Their failure is not modelled; the store opens on a given table.
- Store.DB.GetAll: the driver either yields every row or fails the whole statement. A `Scan` error partway is folded into that failure. The source never checks `rows.Err()`, so an iteration that stops early (for instance on a cancelled request) returns the rows read so far with no error and a 200; the model does not capture that partial listing. The order of the rows is not fixed, so it is compared as a multiset.
- Todos.DecodeTodo: encoding/json matches keys case-insensitively and accepts unknown keys. The model matches exact keys and ignores others. (Decoding `id` into an `int` field parses the literal as an integer, so no float64 is involved in PUT.)
- PatchDecoder.UnmarshalJSON: the body is the first JSON value already read (`Wire`); the byte-level JSON syntax and its error texts are the `Broken(reason)` case.
- PatchDecoder.UnmarshalJSON: `data["id"]` is a float64 in the source, and the model keeps the literal's exact value. Ids of magnitude above 2^53 are rounded by Go and not by the model, so e.g. a PATCH of `/todos/9007199254740993` with that id in the body is a 400 id mismatch in the program and a 200 in the model; the UPDATE's WHERE argument is likewise not rounded.
- Json.Truncate: it is Go's `int(f)` for floats of magnitude below 2^63; for larger values Go's conversion is implementation-defined, while the model truncates to an unbounded integer.
- Decimal.Atoi: it follows strconv.Atoi on base-10 text with an optional sign and a 64-bit range. strconv's error values are reduced to "refused".
- Logging (`logError`, `withLoggingMethod`, slog) is output only and is left out.
- cmd/todos/main.go (environment lookups, the nanoid generator, ListenAndServe) is process wiring and is not part of this model.
- Concurrency (parallel requests, the database serialising writers) is not modelled; every request runs alone against the table.
- UpdateQuery.BuildUpdate: the builder is split into AppendAssignments (the three conditional appends) and the strip-and-WHERE step, which keep the same order of effects as the source.

## Findings

| source | as written | input that shows it | evidently intended | confidence | as-written member | corrected member |
|---|---|---|---|---|---|---|
| internal/todos/sqlite.go:51 | `title.(*string)`, `description.(*string)` and `completed.(*bool)` assert pointer types on values json.Unmarshal decodes into `map[string]any`. Those values are `string` or `bool`, never pointers, so every non-null field value is refused. | `{"id": 1, "title": "new title"}`, the doc comment's own example at internal/todos/handler.go:75, is refused with "title is not a string" | a string or bool value sets that field, as the doc comment at internal/todos/handler.go:72-83 says | high, not executed | PatchDecoder.DocCommentExample | PatchDecoder.FieldStates |
