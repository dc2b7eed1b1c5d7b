/**
 * The dynamic UPDATE statement DB.Patch builds, and what executing it does to
 * the table. The builder appends "col = ?, " per field to set, strips the
 * trailing separator, appends the WHERE clause and binds the raw decoded id.
 */
module UpdateQuery {
  import opened Wrappers
  import opened Json
  import opened Todos
  import opened PatchDecoder
  import Decimal

  datatype Column = TitleColumn | DescriptionColumn | CompletedColumn

  /** A value bound to a placeholder. */
  datatype SqlValue = SqlNull | SqlText(text: string) | SqlBool(flag: bool) | SqlReal(number: real)

  datatype Statement = Statement(query: string, args: seq<SqlValue>)

  function ColumnName(c: Column): string {
    match c
    case TitleColumn => "title"
    case DescriptionColumn => "description"
    case CompletedColumn => "completed"
  }

  function Assignment(c: Column): string {
    ColumnName(c) + " = ?"
  }

  const UpdatePrefix: string := "UPDATE todos SET "
  const WhereClause: string := " WHERE id = ?"

  /** The columns a patch sets, in the statement's fixed order. */
  function SetColumns(p: TodoPatch): seq<Column> {
    (if p.title.Some? then [TitleColumn] else [])
    + (if p.description.Some? then [DescriptionColumn] else [])
    + (if p.completed.Some? then [CompletedColumn] else [])
  }

  /** The values bound to those columns, in the same order. */
  function Bindings(p: TodoPatch): seq<SqlValue> {
    (if p.title.Some? then [SqlText(p.title.value)] else [])
    + (if p.description.Some? then [SqlText(p.description.value)] else [])
    + (if p.completed.Some? then [SqlBool(p.completed.value)] else [])
  }

  /** The WHERE argument: the raw data["id"] number, or NULL (a nil interface) when the key is absent. */
  function WhereArg(data: map<string, Json>): SqlValue
    requires IdRecordOk(data)
  {
    if "id" in data then SqlReal(Float(data["id"].n)) else SqlNull
  }

  /** The assignments separated by ", ", with no separator after the last. */
  function Joined(cols: seq<Column>): string
    requires cols != []
  {
    if |cols| == 1 then Assignment(cols[0])
    else Joined(cols[..|cols| - 1]) + ", " + Assignment(cols[|cols| - 1])
  }

  /** What the builder holds before the strip: every assignment followed by ", ". */
  function Trailing(cols: seq<Column>): string {
    if cols == [] then ""
    else Trailing(cols[..|cols| - 1]) + Assignment(cols[|cols| - 1]) + ", "
  }

  function RenderUpdate(cols: seq<Column>): string
    requires cols != []
  {
    UpdatePrefix + Joined(cols) + WhereClause
  }

  /** The number of `?` placeholders in a query. */
  function Placeholders(s: string): nat {
    if s == [] then 0
    else Placeholders(s[..|s| - 1]) + (if s[|s| - 1] == '?' then 1 else 0)
  }

  lemma {:induction false} PlaceholdersConcat(a: string, b: string)
    ensures Placeholders(a + b) == Placeholders(a) + Placeholders(b)
  {
    if b != [] {
      assert (a + b)[..|a + b| - 1] == a + b[..|b| - 1];
      PlaceholdersConcat(a, b[..|b| - 1]);
    } else {
      assert a + b == a;
    }
  }

  lemma {:induction false} NoPlaceholders(s: string)
    requires forall i | 0 <= i < |s| :: s[i] != '?'
    ensures Placeholders(s) == 0
  {
    if s != [] {
      NoPlaceholders(s[..|s| - 1]);
    }
  }

  lemma AssignmentPlaceholders(c: Column)
    ensures Placeholders(Assignment(c)) == 1
  {
    var name := ColumnName(c);
    NoPlaceholders(name);
    NoPlaceholders(" = ");
    PlaceholdersConcat(name, " = ");
    PlaceholdersConcat(name + " = ", "?");
    assert Assignment(c) == name + " = " + "?";
  }

  lemma {:induction false} JoinedPlaceholders(cols: seq<Column>)
    requires cols != []
    ensures Placeholders(Joined(cols)) == |cols|
  {
    AssignmentPlaceholders(cols[|cols| - 1]);
    if |cols| > 1 {
      var init := cols[..|cols| - 1];
      JoinedPlaceholders(init);
      NoPlaceholders(", ");
      PlaceholdersConcat(Joined(init), ", ");
      PlaceholdersConcat(Joined(init) + ", ", Assignment(cols[|cols| - 1]));
    }
  }

  /** The rendered statement has one placeholder per set column plus the WHERE one. */
  lemma RenderedPlaceholders(cols: seq<Column>)
    requires cols != []
    ensures Placeholders(RenderUpdate(cols)) == |cols| + 1
  {
    JoinedPlaceholders(cols);
    NoPlaceholders(UpdatePrefix);
    NoPlaceholders(" WHERE id = ");
    PlaceholdersConcat(" WHERE id = ", "?");
    assert WhereClause == " WHERE id = " + "?";
    PlaceholdersConcat(UpdatePrefix, Joined(cols));
    PlaceholdersConcat(UpdatePrefix + Joined(cols), WhereClause);
  }

  /** Stripping the last two characters of the builder removes exactly the trailing ", ". */
  lemma {:induction false} TrailingIsJoined(cols: seq<Column>)
    requires cols != []
    ensures Trailing(cols) == Joined(cols) + ", "
  {
    if |cols| > 1 {
      TrailingIsJoined(cols[..|cols| - 1]);
    }
  }

  /** Dropping the final ", " and appending the WHERE clause yields the rendered statement. */
  lemma StripTrailing(cols: seq<Column>, query: string)
    requires cols != [] && query == UpdatePrefix + Trailing(cols)
    ensures |query| >= 2 && query[..|query| - 2] + WhereClause == RenderUpdate(cols)
  {
    TrailingIsJoined(cols);
    assert query == (UpdatePrefix + Joined(cols)) + ", ";
  }

  /** The three segments the builder appends are the assignments, each with a trailing ", ". */
  lemma SegmentTexts()
    ensures "title = ?, " == Assignment(TitleColumn) + ", "
    ensures "description = ?, " == Assignment(DescriptionColumn) + ", "
    ensures "completed = ?, " == Assignment(CompletedColumn) + ", "
  {
  }

  /** Appending one column's segment to the builder extends the trailing text by it. */
  lemma TrailingSnoc(query: string, cols: seq<Column>, c: Column)
    requires query == UpdatePrefix + Trailing(cols)
    ensures query + (Assignment(c) + ", ") == UpdatePrefix + Trailing(cols + [c])
  {
    assert (cols + [c])[..|cols|] == cols;
    Associative(Trailing(cols), Assignment(c), ", ");
    Associative(UpdatePrefix, Trailing(cols), Assignment(c) + ", ");
  }

  lemma Associative(a: string, b: string, c: string)
    ensures (a + b) + c == a + (b + c)
  {
  }

  /**
   * The first half of DB.Patch's string assembly: one "col = ?, " segment and
   * one binding per field to set, in the order title, description, completed.
   */
  method AppendAssignments(p: TodoPatch) returns (query: string, args: seq<SqlValue>)
    ensures query == UpdatePrefix + Trailing(SetColumns(p))
    ensures args == Bindings(p)
  {
    SegmentTexts();
    query := UpdatePrefix;
    args := [];
    ghost var cols: seq<Column> := [];

    if p.title.Some? {
      TrailingSnoc(query, cols, TitleColumn);
      query := query + "title = ?, ";
      args := args + [SqlText(p.title.value)];
      cols := cols + [TitleColumn];
    }
    assert cols == (if p.title.Some? then [TitleColumn] else []);
    assert query == UpdatePrefix + Trailing(cols);

    if p.description.Some? {
      TrailingSnoc(query, cols, DescriptionColumn);
      query := query + "description = ?, ";
      args := args + [SqlText(p.description.value)];
      cols := cols + [DescriptionColumn];
    }
    assert query == UpdatePrefix + Trailing(cols);

    if p.completed.Some? {
      TrailingSnoc(query, cols, CompletedColumn);
      query := query + "completed = ?, ";
      args := args + [SqlBool(p.completed.value)];
      cols := cols + [CompletedColumn];
    }
    assert cols == SetColumns(p);
  }

  /**
   * The string assembly of DB.Patch: no statement when nothing is set,
   * otherwise the rendered UPDATE with its arguments, one per placeholder.
   */
  method BuildUpdate(p: TodoPatch) returns (r: Result<Statement, StoreError>)
    requires IdRecordOk(p.data)
    ensures r.Err? <==> !HasFields(p)
    ensures r.Err? ==> r.error == NoFieldsToUpdate
    ensures r.Ok? ==> r.value.query == RenderUpdate(SetColumns(p))
    ensures r.Ok? ==> r.value.args == Bindings(p) + [WhereArg(p.data)]
    ensures r.Ok? ==> Placeholders(r.value.query) == |r.value.args|
  {
    var query, args := AppendAssignments(p);
    if |args| == 0 {
      return Err(NoFieldsToUpdate);
    }
    StripTrailing(SetColumns(p), query);
    query := query[..|query| - 2];
    query := query + " WHERE id = ?";
    args := args + [WhereArg(p.data)];
    RenderedPlaceholders(SetColumns(p));
    r := Ok(Statement(query, args));
  }

  // ---- how the SQL engine reads a statement of this shape ----

  predicate EndsWith(s: string, t: string) {
    |t| <= |s| && s[|s| - |t|..] == t
  }

  /** The column whose assignment ends `s`, if any. */
  function LastAssignment(s: string): Option<Column> {
    if EndsWith(s, Assignment(TitleColumn)) then Some(TitleColumn)
    else if EndsWith(s, Assignment(DescriptionColumn)) then Some(DescriptionColumn)
    else if EndsWith(s, Assignment(CompletedColumn)) then Some(CompletedColumn)
    else None
  }

  /** A list of assignments separated by ", ", read from the end. */
  function ParseAssignments(s: string): Option<seq<Column>>
    decreases |s|
  {
    match LastAssignment(s)
    case None => None
    case Some(c) =>
      var rest := s[..|s| - |Assignment(c)|];
      if rest == [] then Some([c])
      else if EndsWith(rest, ", ") then
        match ParseAssignments(rest[..|rest| - 2])
        case None => None
        case Some(cols) => Some(cols + [c])
      else None
  }

  /** The SET columns of `UPDATE todos SET ... WHERE id = ?`, or None for any other text. */
  function ParseUpdate(q: string): Option<seq<Column>> {
    if |UpdatePrefix| + |WhereClause| <= |q| && q[..|UpdatePrefix|] == UpdatePrefix && EndsWith(q, WhereClause) then
      ParseAssignments(q[|UpdatePrefix|..|q| - |WhereClause|])
    else None
  }

  lemma SuffixChar(s: string, t: string, k: nat)
    requires 0 < k <= |t|
    ensures EndsWith(s, t) ==> s[|s| - k] == t[|t| - k]
  {
    if EndsWith(s, t) {
      assert s[|s| - |t|..][|t| - k] == t[|t| - k];
    }
  }

  /** The fifth character from the end tells the three assignments apart. */
  lemma LastAssignmentOf(x: string, c: Column)
    ensures LastAssignment(x + Assignment(c)) == Some(c)
  {
    var s := x + Assignment(c);
    assert s[|x|..] == Assignment(c);
    assert s[|s| - 5] == Assignment(c)[|Assignment(c)| - 5];
    assert Assignment(TitleColumn)[4] == 'e';
    assert Assignment(DescriptionColumn)[10] == 'n';
    assert Assignment(CompletedColumn)[8] == 'd';
    SuffixChar(s, Assignment(TitleColumn), 5);
    SuffixChar(s, Assignment(DescriptionColumn), 5);
    SuffixChar(s, Assignment(CompletedColumn), 5);
  }

  /** A column LastAssignment reports does end the text. */
  lemma LastAssignmentEnds(s: string)
    requires LastAssignment(s).Some?
    ensures EndsWith(s, Assignment(LastAssignment(s).value))
  {
  }

  lemma {:induction false} ParseJoined(cols: seq<Column>)
    requires cols != []
    ensures ParseAssignments(Joined(cols)) == Some(cols)
  {
    var c := cols[|cols| - 1];
    var s := Joined(cols);
    if |cols| == 1 {
      assert [] + Assignment(c) == s;
      LastAssignmentOf([], c);
      assert s[..|s| - |Assignment(c)|] == [];
      assert cols == [c];
    } else {
      var init := cols[..|cols| - 1];
      var rest := Joined(init) + ", ";
      assert s == rest + Assignment(c);
      LastAssignmentOf(rest, c);
      assert s[..|s| - |Assignment(c)|] == rest;
      assert rest[|rest| - 2..] == ", ";
      assert rest[..|rest| - 2] == Joined(init);
      ParseJoined(init);
      assert init + [c] == cols;
    }
  }

  /** The engine reads back exactly the columns the statement was rendered from. */
  lemma ParseRendered(cols: seq<Column>)
    requires cols != []
    ensures ParseUpdate(RenderUpdate(cols)) == Some(cols)
  {
    var q := RenderUpdate(cols);
    assert q == UpdatePrefix + (Joined(cols) + WhereClause);
    assert q[..|UpdatePrefix|] == UpdatePrefix;
    assert q[|q| - |WhereClause|..] == WhereClause;
    assert q[|UpdatePrefix|..|q| - |WhereClause|] == Joined(cols);
    ParseJoined(cols);
  }

  lemma {:induction false} JoinedOfParse(s: string)
    requires ParseAssignments(s).Some?
    ensures var cols := ParseAssignments(s).value; cols != [] && s == Joined(cols)
    decreases |s|
  {
    var c := LastAssignment(s).value;
    LastAssignmentEnds(s);
    var rest := s[..|s| - |Assignment(c)|];
    assert s == rest + Assignment(c);
    if rest == [] {
      assert ParseAssignments(s).value == [c];
    } else {
      assert EndsWith(rest, ", ");
      var front := rest[..|rest| - 2];
      assert ParseAssignments(front).Some?;
      var init := ParseAssignments(front).value;
      assert ParseAssignments(s).value == init + [c];
      JoinedOfParse(front);
      assert rest == front + ", ";
      assert (init + [c])[..|init|] == init;
      assert Joined(init + [c]) == Joined(init) + ", " + Assignment(c);
    }
  }

  /** Any text the engine reads as such an UPDATE is the rendering of what it read. */
  lemma RenderedOfParse(q: string)
    requires ParseUpdate(q).Some?
    ensures var cols := ParseUpdate(q).value; cols != [] && q == RenderUpdate(cols)
  {
    var mid := q[|UpdatePrefix|..|q| - |WhereClause|];
    JoinedOfParse(mid);
    assert q == q[..|UpdatePrefix|] + mid + q[|q| - |WhereClause|..];
  }

  // ---- executing the statement on the table ----

  predicate Fits(c: Column, v: SqlValue) {
    match c
    case TitleColumn => v.SqlText?
    case DescriptionColumn => v.SqlText?
    case CompletedColumn => v.SqlBool?
  }

  /** One argument per column of the right type, then a number or NULL for the WHERE id. */
  predicate BindingsFit(cols: seq<Column>, args: seq<SqlValue>) {
    && |args| == |cols| + 1
    && (forall i | 0 <= i < |cols| :: Fits(cols[i], args[i]))
    && (args[|cols|].SqlNull? || args[|cols|].SqlReal?)
  }

  function SetColumn(t: Todo, c: Column, v: SqlValue): Todo
    requires Fits(c, v)
  {
    match c
    case TitleColumn => t.(title := v.text)
    case DescriptionColumn => t.(description := v.text)
    case CompletedColumn => t.(completed := v.flag)
  }

  function AssignAll(t: Todo, cols: seq<Column>, vals: seq<SqlValue>): Todo
    requires |cols| <= |vals| && forall i | 0 <= i < |cols| :: Fits(cols[i], vals[i])
    decreases |cols|
  {
    if cols == [] then t else AssignAll(SetColumn(t, cols[0], vals[0]), cols[1..], vals[1..])
  }

  /** The key `WHERE id = ?` selects: NULL selects none, a number the key equal to it. */
  function Selected(where: SqlValue): Option<int> {
    match where
    case SqlReal(x) => if x == x.Floor as real then Some(x.Floor) else None
    case _ => None
  }

  /** Preparing and executing an UPDATE of this shape. */
  function ExecUpdate(rows: map<int, Todo>, stmt: Statement): Result<map<int, Todo>, StoreError> {
    match ParseUpdate(stmt.query)
    case None => Err(DriverError("syntax error"))
    case Some(cols) =>
      var want := Placeholders(stmt.query);
      if |stmt.args| != want then
        Err(DriverError("sql: expected " + Decimal.IntToDecimal(want) + " arguments, got "
                        + Decimal.IntToDecimal(|stmt.args|)))
      else if !BindingsFit(cols, stmt.args) then Err(DriverError("binding does not match its column"))
      else Ok(ApplyUpdate(rows, cols, stmt.args))
  }

  /** The table after a well-formed UPDATE: the selected row, if present, gets the assignments. */
  function ApplyUpdate(rows: map<int, Todo>, cols: seq<Column>, args: seq<SqlValue>): map<int, Todo>
    requires BindingsFit(cols, args)
  {
    match Selected(args[|cols|])
    case Some(k) => if k in rows then rows[k := AssignAll(rows[k], cols, args)] else rows
    case None => rows
  }

  // ---- the reference meaning of a patch ----

  /** A row with the patch's set fields laid over it; the id column is never touched. */
  function Overlay(t: Todo, p: TodoPatch): Todo {
    Todo(t.id, p.title.GetOr(t.title), p.description.GetOr(t.description), p.completed.GetOr(t.completed))
  }

  /** The key the patch's raw id names: absent, or a number that is not an integer, names none. */
  function PatchTarget(p: TodoPatch): Option<int>
    requires IdRecordOk(p.data)
  {
    if "id" in p.data && Float(p.data["id"].n) == Float(p.data["id"].n).Floor as real then
      Some(Float(p.data["id"].n).Floor)
    else None
  }

  /** The table after a patch: the named row, if present, gets the overlay; nothing else changes. */
  function PatchRows(rows: map<int, Todo>, p: TodoPatch): (r: map<int, Todo>)
    requires IdRecordOk(p.data)
    ensures r.Keys == rows.Keys
    ensures Keyed(rows) ==> Keyed(r)
  {
    match PatchTarget(p)
    case Some(k) => if k in rows then rows[k := Overlay(rows[k], p)] else rows
    case None => rows
  }

  lemma {:induction false} AssignAllAppend(t: Todo, c1: seq<Column>, c2: seq<Column>, v1: seq<SqlValue>, v2: seq<SqlValue>)
    requires |c1| == |v1| && |c2| <= |v2|
    requires forall i | 0 <= i < |c1| :: Fits(c1[i], v1[i])
    requires forall i | 0 <= i < |c2| :: Fits(c2[i], v2[i])
    ensures |c1 + c2| <= |v1 + v2| && forall i | 0 <= i < |c1 + c2| :: Fits((c1 + c2)[i], (v1 + v2)[i])
    ensures AssignAll(t, c1 + c2, v1 + v2) == AssignAll(AssignAll(t, c1, v1), c2, v2)
    decreases |c1|
  {
    assert forall i | 0 <= i < |c1 + c2| :: Fits((c1 + c2)[i], (v1 + v2)[i]) by {
      forall i | 0 <= i < |c1 + c2| ensures Fits((c1 + c2)[i], (v1 + v2)[i]) {
        if i >= |c1| {
          assert (c1 + c2)[i] == c2[i - |c1|] && (v1 + v2)[i] == v2[i - |c1|];
        }
      }
    }
    if c1 != [] {
      assert (c1 + c2)[1..] == c1[1..] + c2 && (v1 + v2)[1..] == v1[1..] + v2;
      AssignAllAppend(SetColumn(t, c1[0], v1[0]), c1[1..], c2, v1[1..], v2);
    } else {
      assert c1 + c2 == c2 && v1 + v2 == v2;
    }
  }

  /** Assigning one column, with any arguments left over after it, sets just that column. */
  lemma AssignSingle(t: Todo, c: Column, v: SqlValue, rest: seq<SqlValue>)
    requires Fits(c, v)
    ensures AssignAll(t, [c], [v] + rest) == SetColumn(t, c, v)
  {
    assert [c][1..] == [];
  }

  /** Assigning the built columns their bindings lays the patch over the row. */
  lemma AssignAllIsOverlay(t: Todo, p: TodoPatch, where: SqlValue)
    ensures var cols, args := SetColumns(p), Bindings(p) + [where];
      |cols| <= |args| && (forall i | 0 <= i < |cols| :: Fits(cols[i], args[i]))
      && AssignAll(t, cols, args) == Overlay(t, p)
  {
    var ct: seq<Column> := if p.title.Some? then [TitleColumn] else [];
    var cd: seq<Column> := if p.description.Some? then [DescriptionColumn] else [];
    var cc: seq<Column> := if p.completed.Some? then [CompletedColumn] else [];
    var bt: seq<SqlValue> := if p.title.Some? then [SqlText(p.title.value)] else [];
    var bd: seq<SqlValue> := if p.description.Some? then [SqlText(p.description.value)] else [];
    var bc: seq<SqlValue> := if p.completed.Some? then [SqlBool(p.completed.value)] else [];
    var t1 := t.(title := p.title.GetOr(t.title));
    var t2 := t1.(description := p.description.GetOr(t.description));
    if p.title.Some? {
      AssignSingle(t, TitleColumn, bt[0], []);
      assert bt == [bt[0]] + [];
    }
    assert AssignAll(t, ct, bt) == t1;
    if p.description.Some? {
      AssignSingle(t1, DescriptionColumn, bd[0], []);
      assert bd == [bd[0]] + [];
    }
    assert AssignAll(t1, cd, bd) == t2;
    if p.completed.Some? {
      AssignSingle(t2, CompletedColumn, bc[0], [where]);
      assert bc + [where] == [bc[0]] + [where];
    }
    assert AssignAll(t2, cc, bc + [where]) == Overlay(t, p);
    AssignAllAppend(t1, cd, cc, bd, bc + [where]);
    AssignAllAppend(t, ct, cd + cc, bt, bd + (bc + [where]));
    assert SetColumns(p) == ct + (cd + cc);
    assert Bindings(p) + [where] == bt + (bd + (bc + [where]));
  }

  /** The update the built statement applies is the reference patch. */
  lemma ApplyIsPatch(rows: map<int, Todo>, p: TodoPatch)
    requires IdRecordOk(p.data)
    ensures BindingsFit(SetColumns(p), Bindings(p) + [WhereArg(p.data)])
    ensures ApplyUpdate(rows, SetColumns(p), Bindings(p) + [WhereArg(p.data)]) == PatchRows(rows, p)
  {
    var cols, args := SetColumns(p), Bindings(p) + [WhereArg(p.data)];
    AssignAllIsOverlay(ZeroTodo, p, WhereArg(p.data));
    assert |cols| == |Bindings(p)|;
    assert args[|cols|] == WhereArg(p.data);
    assert Selected(args[|cols|]) == PatchTarget(p);
    match PatchTarget(p)
    case Some(k) =>
      if k in rows {
        AssignAllIsOverlay(rows[k], p, WhereArg(p.data));
      }
    case None =>
  }

  /** Executing the built statement applies exactly the reference patch. */
  lemma ExecutesAsPatch(rows: map<int, Todo>, p: TodoPatch)
    requires IdRecordOk(p.data) && HasFields(p)
    ensures ExecUpdate(rows, Statement(RenderUpdate(SetColumns(p)), Bindings(p) + [WhereArg(p.data)]))
         == Ok(PatchRows(rows, p))
  {
    var cols := SetColumns(p);
    ParseRendered(cols);
    RenderedPlaceholders(cols);
    ApplyIsPatch(rows, p);
  }

  /** A fractional id still passes the path check after truncation, but the UPDATE matches no row. */
  lemma FractionalIdPatchesNothing(rows: map<int, Todo>, typing: Typing)
    ensures var w := Parsed(Obj(map["id" := Num(FracLit(1.5)), "title" := Null]));
      var r := DecodePatch(typing, NewTodoPatch(), w);
      && r.Ok? && r.value.id == 1 && HasFields(r.value)
      && PatchRows(rows, r.value) == rows
  {
    var fields := map["id" := Num(FracLit(1.5)), "title" := Null];
    assert map[] + fields == fields;
    assert (1.5).Floor == 1;
  }

  /** Without an id key the decoded ID is 0 and the WHERE argument is NULL: nothing is updated. */
  lemma MissingIdPatchesNothing(rows: map<int, Todo>, typing: Typing, fields: map<string, Json>)
    requires "id" !in fields
    requires DecodePatch(typing, NewTodoPatch(), Parsed(Obj(fields))).Ok?
    ensures var p := DecodePatch(typing, NewTodoPatch(), Parsed(Obj(fields))).value;
      p.id == 0 && IdRecordOk(p.data) && WhereArg(p.data) == SqlNull && PatchRows(rows, p) == rows
  {
    assert map[] + fields == fields;
  }

  /**
   * The store test's patch `{"id": 1, "description": null, "completed": null}`
   * on row 1 resets description and completed and keeps the title.
   */
  lemma ResetDescriptionAndCompleted(typing: Typing)
    ensures var row := Todo(1, "Todo 1", "Description 1", true);
      var w := Parsed(Obj(map["id" := Num(IntLit(1)), "description" := Null, "completed" := Null]));
      var r := DecodePatch(typing, NewTodoPatch(), w);
      && r.Ok? && r.value.id == 1 && HasFields(r.value)
      && PatchRows(map[1 := row], r.value) == map[1 := Todo(1, "Todo 1", "", false)]
  {
    var fields := map["id" := Num(IntLit(1)), "description" := Null, "completed" := Null];
    assert map[] + fields == fields;
    assert "title" !in fields;
  }
}
