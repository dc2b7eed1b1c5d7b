/**
 * The tri-state patch decoder (TodoPatch and its UnmarshalJSON): the body is
 * first decoded into a key-to-value map, so that for title, description and
 * completed a missing key (leave the column alone), an explicit null (reset
 * the column to its zero value) and a value can be told apart.
 */
module PatchDecoder {
  import opened Wrappers
  import opened Json
  import opened Todos

  /**
   * How a non-null title, description or completed value is checked.
   * AsWritten: as the code does, by a type assertion to *string or *bool,
   * which the string or bool that encoding/json stores in the map never
   * satisfies. Intended: a string (a bool) is taken as the new value.
   */
  datatype Typing = AsWritten | Intended

  /** The decoded patch: the raw key map, the truncated id and the fields to set. */
  datatype TodoPatch = TodoPatch(
    data: map<string, Json>,
    id: int,
    title: Option<string>,
    description: Option<string>,
    completed: Option<bool>)

  predicate HasFields(p: TodoPatch) {
    p.title.Some? || p.description.Some? || p.completed.Some?
  }

  /** NewTodoPatch: an empty map and no field to set. */
  function NewTodoPatch(): TodoPatch {
    TodoPatch(map[], 0, None, None, None)
  }

  /** What the package keeps true of data["id"]: absent, or the number it decoded. */
  predicate IdRecordOk(data: map<string, Json>) {
    "id" in data ==> data["id"].Num?
  }

  function StringValue(typing: Typing, j: Json): Option<string> {
    match typing
    case AsWritten => None
    case Intended => if j.Str? then Some(j.s) else None
  }

  function BoolValue(typing: Typing, j: Json): Option<bool> {
    match typing
    case AsWritten => None
    case Intended => if j.Bool? then Some(j.b) else None
  }

  /** json.Unmarshal into the receiver's map: an object adds its keys, null empties it. */
  function LoadData(data: map<string, Json>, doc: Json): Result<map<string, Json>, string> {
    match doc
    case Null => Ok(map[])
    case Obj(fields) => Ok(data + fields)
    case _ => Err("json: cannot unmarshal " + KindName(doc) + " into Go value of type map[string]interface {}")
  }

  /** A *string field after decoding: None when the key's value is refused. */
  function StringUpdate(typing: Typing, data: map<string, Json>, key: string, current: Option<string>): Option<Option<string>> {
    if key !in data then Some(current)
    else if data[key].Null? then Some(Some(""))
    else match StringValue(typing, data[key])
      case Some(s) => Some(Some(s))
      case None => None
  }

  /** A *bool field after decoding: None when the key's value is refused. */
  function BoolUpdate(typing: Typing, data: map<string, Json>, key: string, current: Option<bool>): Option<Option<bool>> {
    if key !in data then Some(current)
    else if data[key].Null? then Some(Some(false))
    else match BoolValue(typing, data[key])
      case Some(b) => Some(Some(b))
      case None => None
  }

  /** The key checks of UnmarshalJSON, in the code's order, over the loaded map. */
  function Interpret(typing: Typing, tp: TodoPatch): Result<TodoPatch, string> {
    var data := tp.data;
    if "id" in data && data["id"].Null? then Err("id is required")
    else if "id" in data && !data["id"].Num? then Err("id is not a float64")
    else
      var withId := if "id" in data then tp.(id := Truncate(Float(data["id"].n))) else tp;
      match StringUpdate(typing, data, "title", tp.title)
      case None => Err("title is not a string")
      case Some(title) =>
        match StringUpdate(typing, data, "description", tp.description)
        case None => Err("description is not a string")
        case Some(description) =>
          match BoolUpdate(typing, data, "completed", tp.completed)
          case None => Err("completed is not a boolean")
          case Some(completed) =>
            Ok(withId.(title := title, description := description, completed := completed))
  }

  /** TodoPatch.UnmarshalJSON on receiver `tp`, as a function of the body. */
  function DecodePatch(typing: Typing, tp: TodoPatch, w: Wire): Result<TodoPatch, string> {
    match w
    case Broken(reason) => Err(reason)
    case Parsed(doc) =>
      match LoadData(tp.data, doc)
      case Err(e) => Err(e)
      case Ok(data) => Interpret(typing, tp.(data := data))
  }

  /** UnmarshalJSON, filling the receiver step by step and returning at the first refused key. */
  method UnmarshalJSON(typing: Typing, tp: TodoPatch, w: Wire) returns (p: TodoPatch, err: Option<string>)
    ensures err.None? <==> DecodePatch(typing, tp, w).Ok?
    ensures err.None? ==> p == DecodePatch(typing, tp, w).value
    ensures err.Some? ==> err.value == DecodePatch(typing, tp, w).error
  {
    p := tp;
    if w.Broken? {
      return p, Some(w.reason);
    }
    var doc := w.doc;
    if doc.Null? {
      p := p.(data := map[]);
    } else if doc.Obj? {
      p := p.(data := p.data + doc.fields);
    } else {
      return p, Some("json: cannot unmarshal " + KindName(doc) + " into Go value of type map[string]interface {}");
    }

    if "id" in p.data {
      var raw := p.data["id"];
      if raw.Null? {
        return p, Some("id is required");
      }
      if !raw.Num? {
        return p, Some("id is not a float64");
      }
      p := p.(id := Truncate(Float(raw.n)));
    }

    if "title" in p.data {
      var raw := p.data["title"];
      if raw.Null? {
        p := p.(title := Some(""));
      } else {
        var s := StringValue(typing, raw);
        p := p.(title := s);
        if s.None? {
          return p, Some("title is not a string");
        }
      }
    }

    if "description" in p.data {
      var raw := p.data["description"];
      if raw.Null? {
        p := p.(description := Some(""));
      } else {
        var s := StringValue(typing, raw);
        p := p.(description := s);
        if s.None? {
          return p, Some("description is not a string");
        }
      }
    }

    if "completed" in p.data {
      var raw := p.data["completed"];
      if raw.Null? {
        p := p.(completed := Some(false));
      } else {
        var b := BoolValue(typing, raw);
        p := p.(completed := b);
        if b.None? {
          return p, Some("completed is not a boolean");
        }
      }
    }
    err := None;
  }

  // ---- what decoding a fresh patch promises ----

  /** The three states of a field key: absent keeps None, null resets, a value sets it. */
  lemma FieldStates(typing: Typing, fields: map<string, Json>)
    requires DecodePatch(typing, NewTodoPatch(), Parsed(Obj(fields))).Ok?
    ensures var p := DecodePatch(typing, NewTodoPatch(), Parsed(Obj(fields))).value;
      && p.data == fields
      && ("title" !in fields ==> p.title == None)
      && ("title" in fields && fields["title"].Null? ==> p.title == Some(""))
      && ("title" in fields && fields["title"].Str? ==> p.title == Some(fields["title"].s))
      && ("description" !in fields ==> p.description == None)
      && ("description" in fields && fields["description"].Null? ==> p.description == Some(""))
      && ("description" in fields && fields["description"].Str? ==> p.description == Some(fields["description"].s))
      && ("completed" !in fields ==> p.completed == None)
      && ("completed" in fields && fields["completed"].Null? ==> p.completed == Some(false))
      && ("completed" in fields && fields["completed"].Bool? ==> p.completed == Some(fields["completed"].b))
  {
    assert map[] + fields == fields;
  }

  /** The id rules: null and non-numbers are refused, a number is truncated, a missing id leaves 0. */
  lemma IdRules(typing: Typing, fields: map<string, Json>)
    ensures var r := DecodePatch(typing, NewTodoPatch(), Parsed(Obj(fields)));
      && ("id" in fields && fields["id"].Null? ==> r == Err("id is required"))
      && ("id" in fields && !fields["id"].Null? && !fields["id"].Num? ==> r == Err("id is not a float64"))
      && ("id" in fields && fields["id"].Num? && r.Ok? ==> r.value.id == Truncate(Float(fields["id"].n)))
      && ("id" !in fields && r.Ok? ==> r.value.id == 0)
  {
    assert map[] + fields == fields;
  }

  /** A field value a reading takes: null resets the field, and under Intended a value of its type sets it. */
  predicate StringAccepted(typing: Typing, j: Json) {
    j.Null? || StringValue(typing, j).Some?
  }

  predicate BoolAccepted(typing: Typing, j: Json) {
    j.Null? || BoolValue(typing, j).Some?
  }

  /** Which object bodies decode: a numeric or absent id, and every field key holding a value its reading takes. */
  lemma DecodeSucceeds(typing: Typing, fields: map<string, Json>)
    ensures DecodePatch(typing, NewTodoPatch(), Parsed(Obj(fields))).Ok? <==>
      && ("id" in fields ==> fields["id"].Num?)
      && ("title" in fields ==> StringAccepted(typing, fields["title"]))
      && ("description" in fields ==> StringAccepted(typing, fields["description"]))
      && ("completed" in fields ==> BoolAccepted(typing, fields["completed"]))
  {
    assert map[] + fields == fields;
  }

  /** The first field key, in the code's order, holding a value its reading does not take is refused with its own message. */
  lemma MistypedFieldRefused(typing: Typing, fields: map<string, Json>)
    requires "id" in fields ==> fields["id"].Num?
    ensures var r := DecodePatch(typing, NewTodoPatch(), Parsed(Obj(fields)));
      && ("title" in fields && !StringAccepted(typing, fields["title"]) ==> r == Err("title is not a string"))
      && (("title" in fields ==> StringAccepted(typing, fields["title"]))
          && "description" in fields && !StringAccepted(typing, fields["description"])
          ==> r == Err("description is not a string"))
      && (("title" in fields ==> StringAccepted(typing, fields["title"]))
          && ("description" in fields ==> StringAccepted(typing, fields["description"]))
          && "completed" in fields && !BoolAccepted(typing, fields["completed"])
          ==> r == Err("completed is not a boolean"))
  {
    assert map[] + fields == fields;
  }

  /** Under the intended reading a number for the title is refused, not taken as a reset. */
  lemma NumericTitleRefused()
    ensures DecodePatch(Intended, NewTodoPatch(), Parsed(Obj(map["id" := Num(IntLit(1)), "title" := Num(IntLit(5))])))
         == Err("title is not a string")
  {
    var fields := map["id" := Num(IntLit(1)), "title" := Num(IntLit(5))];
    MistypedFieldRefused(Intended, fields);
  }

  /** A top-level null body empties the map and succeeds with nothing to set. */
  lemma NullBodyDecodesEmpty(typing: Typing)
    ensures DecodePatch(typing, NewTodoPatch(), Parsed(Null)) == Ok(NewTodoPatch())
  {
  }

  /** A successful decode keeps data["id"] a number, so the UPDATE's last argument is a number or NULL. */
  lemma DecodeKeepsIdRecord(typing: Typing, tp: TodoPatch, w: Wire)
    requires IdRecordOk(tp.data) && DecodePatch(typing, tp, w).Ok?
    ensures IdRecordOk(DecodePatch(typing, tp, w).value.data)
  {
  }

  // ---- the type assertions as written ----

  /** As written, a decode only succeeds when every field key present holds null. */
  lemma AsWrittenOnlyResets(tp: TodoPatch, w: Wire)
    requires DecodePatch(AsWritten, tp, w).Ok?
    ensures var p := DecodePatch(AsWritten, tp, w).value;
      forall key | key in p.data && (key == "title" || key == "description" || key == "completed") ::
        p.data[key].Null?
  {
  }

  /** The doc comment's own example `{"id": 1, "title": "new title"}`: refused as written, a title update as intended. */
  lemma DocCommentExample()
    ensures var w := Parsed(Obj(map["id" := Num(IntLit(1)), "title" := Str("new title")]));
      && DecodePatch(AsWritten, NewTodoPatch(), w) == Err("title is not a string")
      && DecodePatch(Intended, NewTodoPatch(), w).Ok?
      && DecodePatch(Intended, NewTodoPatch(), w).value.title == Some("new title")
  {
    var fields := map["id" := Num(IntLit(1)), "title" := Str("new title")];
    assert map[] + fields == fields;
    assert "description" !in fields && "completed" !in fields;
  }

  /** The two readings agree on every body whose field keys hold only nulls. */
  lemma TypingsAgreeOnResets(tp: TodoPatch, w: Wire)
    requires w.Parsed? && w.doc.Obj?
    requires forall key | key in w.doc.fields && (key == "title" || key == "description" || key == "completed") ::
      w.doc.fields[key].Null?
    requires forall key | key in tp.data && (key == "title" || key == "description" || key == "completed") ::
      tp.data[key].Null?
    ensures DecodePatch(AsWritten, tp, w) == DecodePatch(Intended, tp, w)
  {
    var data := tp.data + w.doc.fields;
    assert forall key | key in data && (key == "title" || key == "description" || key == "completed") ::
      data[key].Null?;
  }
}
