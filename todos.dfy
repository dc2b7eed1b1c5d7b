/**
 * The todo item, the store's error kinds and the PUT body decoding, shared by
 * both generations of the service (internal/todos and internal/db).
 */
module Todos {
  import opened Wrappers
  import opened Json
  import Decimal

  /** One row of the `todos` table; `id` is the caller-chosen primary key. */
  datatype Todo = Todo(id: int, title: string, description: string, completed: bool)

  /** The row a freshly declared `Todo{}` holds before decoding. */
  const ZeroTodo: Todo := Todo(0, "", "", false)

  /** The outcome the SQL driver gives one statement: it runs, or it fails with a message. */
  datatype Driver = Healthy | Failing(reason: string)

  datatype StoreError =
    | NotFound(id: int)      // no row with that id (ErrNotFound)
    | NoFieldsToUpdate       // a patch that sets nothing (ErrNoFieldsToUpdate)
    | DriverError(reason: string)

  /** The failure, if any, that a single statement reports. */
  function Failure(driver: Driver): Option<StoreError> {
    match driver
    case Healthy => None
    case Failing(reason) => Some(DriverError(reason))
  }

  /** The error's Error() text. */
  function Message(e: StoreError): string {
    match e
    case NotFound(id) => "todo `" + Decimal.IntToDecimal(id) + "` not found"
    case NoFieldsToUpdate => "no fields to update"
    case DriverError(reason) => reason
  }

  /** The table's key invariant: each row is stored under its own id. */
  predicate Keyed(rows: map<int, Todo>) {
    forall id | id in rows :: rows[id].id == id
  }

  /** A not-found message names exactly one id. */
  lemma NotFoundMessageNamesId(a: int, b: int)
    ensures Message(NotFound(a)) == Message(NotFound(b)) <==> a == b
  {
    if Message(NotFound(a)) == Message(NotFound(b)) {
      var sa, sb := Decimal.IntToDecimal(a), Decimal.IntToDecimal(b);
      var m := Message(NotFound(a));
      assert m == "todo `" + sa + "` not found";
      assert m == "todo `" + sb + "` not found";
      assert |sa| == |sb|;
      assert sa == m[6..6 + |sa|];
      assert sb == m[6..6 + |sb|];
      Decimal.DecimalInjective(a, b);
    }
  }

  // ---- encoding/json for the Todo struct (PUT bodies and GET responses) ----

  /** An `int` field: absent or null keeps zero; an integer literal must fit 64 bits. */
  function IntField(fields: map<string, Json>, key: string): Option<int> {
    if key !in fields then Some(0)
    else match fields[key]
      case Null => Some(0)
      case Num(IntLit(i)) => if Decimal.MinInt <= i <= Decimal.MaxInt then Some(i) else None
      case _ => None
  }

  /** A `string` field: absent or null keeps "". */
  function StringField(fields: map<string, Json>, key: string): Option<string> {
    if key !in fields then Some("")
    else match fields[key]
      case Null => Some("")
      case Str(s) => Some(s)
      case _ => None
  }

  /** A `bool` field: absent or null keeps false. */
  function BoolField(fields: map<string, Json>, key: string): Option<bool> {
    if key !in fields then Some(false)
    else match fields[key]
      case Null => Some(false)
      case Bool(b) => Some(b)
      case _ => None
  }

  /**
   * Decoding a request body into a zero `Todo`: a top-level null leaves it
   * zero, an object fills the four known keys and ignores the rest, any other
   * value or a mistyped field is an error.
   */
  function DecodeTodo(w: Wire): Option<Todo> {
    match w
    case Broken(_) => None
    case Parsed(Null) => Some(ZeroTodo)
    case Parsed(Obj(fields)) =>
      var id, title := IntField(fields, "id"), StringField(fields, "title");
      var description, completed := StringField(fields, "description"), BoolField(fields, "completed");
      if id.Some? && title.Some? && description.Some? && completed.Some? then
        Some(Todo(id.value, title.value, description.value, completed.value))
      else None
    case Parsed(_) => None
  }

  /** The JSON object encoding/json writes for a Todo, by its struct tags. */
  function EncodeTodo(t: Todo): Json {
    Obj(map["id" := Num(IntLit(t.id)), "title" := Str(t.title),
            "description" := Str(t.description), "completed" := Bool(t.completed)])
  }

  /** A Todo read back from its own encoding is the same Todo. */
  lemma DecodeEncodedTodo(t: Todo)
    requires Decimal.MinInt <= t.id <= Decimal.MaxInt
    ensures DecodeTodo(Parsed(EncodeTodo(t))) == Some(t)
  {
  }

  /** A key holding a value of the wrong JSON kind fails the whole body. */
  lemma DecodeTodoRejectsMistypedField(fields: map<string, Json>)
    requires "id" in fields && (fields["id"].Str? || (fields["id"].Num? && fields["id"].n.FracLit?))
    ensures DecodeTodo(Parsed(Obj(fields))) == None
  {
  }
}
