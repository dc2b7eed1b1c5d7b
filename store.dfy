/**
 * The todo store: the `todos` table as a map from primary key to row, with the
 * SQL statements given their effect on that map. The same model serves the
 * current store (internal/todos.DB) and the older one (internal/db.Todos); the
 * outcome the SQL driver reports for a statement is a parameter.
 */
module Store {
  import opened Wrappers
  import opened Todos
  import opened PatchDecoder
  import opened UpdateQuery

  /** `SELECT ... WHERE id = ?` scanned into a Todo: the row, or NotFound for no row. */
  function Lookup(rows: map<int, Todo>, id: int, driver: Driver): Result<Todo, StoreError> {
    match Failure(driver)
    case Some(e) => Err(e)
    case None => if id in rows then Ok(rows[id]) else Err(NotFound(id))
  }

  /** What DB.Patch reports: a patch that sets nothing fails before any statement runs. */
  function PatchOutcome(p: TodoPatch, driver: Driver): Option<StoreError> {
    if !HasFields(p) then Some(NoFieldsToUpdate) else Failure(driver)
  }

  /** The rows the table holds, as a set of values. */
  function Stored(rows: map<int, Todo>): set<Todo> {
    set k | k in rows :: rows[k]
  }

  /** Removing one row from a keyed table removes exactly its value. */
  lemma RemoveRow(m: map<int, Todo>, k: int)
    requires Keyed(m) && k in m
    ensures Keyed(m - {k})
    ensures multiset(Stored(m)) == multiset(Stored(m - {k})) + multiset{m[k]}
  {
    var r := m - {k};
    assert m[k] !in Stored(r);
    forall v | v in Stored(m) ensures v in Stored(r) + {m[k]} {
      var j :| j in m && m[j] == v;
      if j != k {
        assert r[j] == v;
      }
    }
    forall v | v in Stored(r) ensures v in Stored(m) {
      var j :| j in r && r[j] == v;
      assert m[j] == v;
    }
    assert m[k] in Stored(m);
    assert Stored(m) == Stored(r) + {m[k]};
  }

  /** A non-empty table has a key. */
  lemma SomeKey(m: map<int, Todo>)
    requires m != map[]
    ensures exists k :: k in m
  {
    if forall k :: k !in m {
      assert false;
    }
  }

  /** A keyed table has one value per key, so listing it gives as many rows as it has keys. */
  lemma {:induction false} ListingSize(rows: map<int, Todo>)
    requires Keyed(rows)
    ensures |multiset(Stored(rows))| == |rows|
    decreases |rows|
  {
    if rows != map[] {
      SomeKey(rows);
      var k :| k in rows;
      RemoveRow(rows, k);
      assert rows.Keys == (rows - {k}).Keys + {k};
      ListingSize(rows - {k});
    }
  }

  /** A patch fresh from NewTodoPatch sets nothing: Patch refuses it before any statement, whatever the driver. */
  lemma FreshPatchSetsNothing(rows: map<int, Todo>, driver: Driver)
    ensures PatchOutcome(NewTodoPatch(), driver) == Some(NoFieldsToUpdate)
    ensures PatchRows(rows, NewTodoPatch()) == rows
  {
  }

  /** A table holding one row lists exactly that row. */
  lemma ListingOfOne(t: Todo)
    ensures multiset(Stored(map[t.id := t])) == multiset{t}
  {
    var m := map[t.id := t];
    assert m[t.id] in Stored(m);
    assert Stored(m) == {t};
  }

  /** After an insert the row reads back unchanged, under its own id. */
  lemma LookupAfterInsert(rows: map<int, Todo>, t: Todo)
    ensures Lookup(rows[t.id := t], t.id, Healthy) == Ok(t)
  {
  }

  /** An insert over an existing id replaces all four columns; every other id reads as before. */
  lemma InsertReplaces(rows: map<int, Todo>, t: Todo, id: int)
    ensures Lookup(rows[t.id := t], id, Healthy) == (if id == t.id then Ok(t) else Lookup(rows, id, Healthy))
  {
  }

  /** Deleting removes the row, touches no other, and deleting again changes nothing. */
  lemma DeleteIsIdempotent(rows: map<int, Todo>, id: int, other: int)
    ensures Lookup(rows - {id}, id, Healthy) == Err(NotFound(id))
    ensures other != id ==> Lookup(rows - {id}, other, Healthy) == Lookup(rows, other, Healthy)
    ensures (rows - {id}) - {id} == rows - {id}
    ensures id !in rows ==> rows - {id} == rows
  {
  }

  /** An id is reported missing by a message that names it and no other id. */
  lemma MissingRowMessage(rows: map<int, Todo>, id: int, other: int)
    requires id !in rows
    ensures Lookup(rows, id, Healthy).Err?
    ensures Message(Lookup(rows, id, Healthy).error) == Message(NotFound(other)) <==> id == other
  {
    NotFoundMessageNamesId(id, other);
  }

  class DB {
    /** The rows of the `todos` table, by primary key. */
    var rows: map<int, Todo>

    ghost predicate Valid()
      reads this
    {
      Keyed(rows)
    }

    /** The store opened on a table that already holds `initial`. */
    constructor (initial: map<int, Todo>)
      requires Keyed(initial)
      ensures Valid() && rows == initial
    {
      rows := initial;
    }

    /** `INSERT OR REPLACE`: the row under todo.id becomes todo; nothing else changes. */
    method Insert(todo: Todo, driver: Driver) returns (err: Option<StoreError>)
      requires Valid()
      modifies this
      ensures Valid()
      ensures err == Failure(driver)
      ensures rows == if err.None? then old(rows)[todo.id := todo] else old(rows)
    {
      err := Failure(driver);
      if err.None? {
        rows := rows[todo.id := todo];
      }
    }

    /** `DELETE ... WHERE id = ?`: no row with that id remains; an absent id is no error. */
    method Delete(id: int, driver: Driver) returns (err: Option<StoreError>)
      requires Valid()
      modifies this
      ensures Valid()
      ensures err == Failure(driver)
      ensures rows == if err.None? then old(rows) - {id} else old(rows)
    {
      err := Failure(driver);
      if err.None? {
        rows := rows - {id};
      }
    }

    /** `SELECT ... WHERE id = ?`: the row, NotFound(id) when no row is scanned, or the driver's error. */
    method Get(id: int, driver: Driver) returns (r: Result<Todo, StoreError>)
      ensures r == Lookup(rows, id, driver)
      ensures r.Ok? ==> r.value == rows[id] && driver.Healthy?
      ensures r.Err? && driver.Healthy? ==> id !in rows && r.error == NotFound(id)
    {
      if driver.Failing? {
        return Err(DriverError(driver.reason));
      }
      if id !in rows {
        return Err(NotFound(id));
      }
      r := Ok(rows[id]);
    }

    /**
     * `SELECT ... FROM todos`, scanning one row per step and appending it:
     * every row exactly once, in an order the table does not fix.
     */
    method GetAll(driver: Driver) returns (r: Result<seq<Todo>, StoreError>)
      requires Valid()
      ensures driver.Failing? ==> r == Err(DriverError(driver.reason))
      ensures driver.Healthy? ==> r.Ok? && multiset(r.value) == multiset(Stored(rows))
    {
      if driver.Failing? {
        return Err(DriverError(driver.reason));
      }
      var todos: seq<Todo> := [];
      var rest := rows;
      while rest != map[]
        invariant Keyed(rest)
        invariant multiset(todos) + multiset(Stored(rest)) == multiset(Stored(rows))
        decreases rest.Keys
      {
        SomeKey(rest);
        var k :| k in rest;
        RemoveRow(rest, k);
        todos := todos + [rest[k]];
        rest := rest - {k};
      }
      r := Ok(todos);
    }

    /**
     * Builds the UPDATE for the patch and executes it: a patch that sets
     * nothing fails with NoFieldsToUpdate and touches nothing; otherwise the
     * row the raw id names, if any, gets the set fields.
     */
    method Patch(p: TodoPatch, driver: Driver) returns (err: Option<StoreError>)
      requires Valid() && IdRecordOk(p.data)
      modifies this
      ensures Valid()
      ensures err == PatchOutcome(p, driver)
      ensures rows == if err.None? then PatchRows(old(rows), p) else old(rows)
    {
      var built := BuildUpdate(p);
      if built.Err? {
        return Some(built.error);
      }
      if driver.Failing? {
        return Some(DriverError(driver.reason));
      }
      ExecutesAsPatch(rows, p);
      var result := ExecUpdate(rows, built.value);
      assert result.Ok?;
      rows := result.value;
      err := None;
    }
  }
}
