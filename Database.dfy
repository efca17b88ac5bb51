/**
 * The SQLite access layer of src/lib/database.ts: the lazily opened
 * connection, the `createProject` insert and the `updateTaskProgress`
 * statement builder. A connection is modelled by the statements executed
 * through it.
 */
module Database {
  import opened Js

  /** A value bound to a `?` placeholder. */
  datatype SqlValue = Num(n: int) | Text(s: string)

  /** The status column's values in this layer. */
  datatype DbStatus = Pending | Running | Completed | Failed

  function StatusText(s: DbStatus): string
  {
    match s
    case Pending => "pending"
    case Running => "running"
    case Completed => "completed"
    case Failed => "failed"
  }

  datatype Statement = Statement(sql: string, params: seq<SqlValue>)

  /** A handle returned by `Database.load`: the statements executed through it, in order. */
  class Connection {
    const url: string
    var executed: seq<Statement>

    constructor(url0: string)
      ensures url == url0 && executed == []
    {
      url := url0;
      executed := [];
    }

    /** `db.execute(sql, params)`. */
    method Execute(sql: string, params: seq<SqlValue>)
      modifies this
      ensures executed == old(executed) + [Statement(sql, params)]
    {
      executed := executed + [Statement(sql, params)];
    }
  }

  const DatabaseUrl: string := "sqlite:artisan.db"

  /** The four tables `initDatabase` creates, in order. */
  const Tables: seq<string> := ["projects", "data_sources", "generation_tasks", "generated_articles"]

  /** `CREATE TABLE IF NOT EXISTS {table} (...)`; the column lists are not modelled. */
  function CreateTableSql(table: string): string
  {
    "CREATE TABLE IF NOT EXISTS " + table
  }

  /** The statements a freshly loaded connection has run once `initDatabase` returns. */
  const SchemaStatements: seq<Statement> :=
    [ Statement(CreateTableSql(Tables[0]), []), Statement(CreateTableSql(Tables[1]), []),
      Statement(CreateTableSql(Tables[2]), []), Statement(CreateTableSql(Tables[3]), []) ]

  const InsertProjectSql: string := "INSERT INTO projects (name, description) VALUES (?, ?)"

  // ---------------------------------------------------------------------
  // updateTaskProgress

  const ProgressField: string := "progress = ?"

  const StatusField: string := "status = ?"

  const CompletedAtField: string := "completed_at = CURRENT_TIMESTAMP"

  /** The SET list: progress always, the status when one is given, the completion time for `completed`. */
  function SetFields(status: Option<DbStatus>): seq<string>
  {
    [ProgressField]
    + (if status.Some? then [StatusField] else [])
    + (if status == Some(Completed) then [CompletedAtField] else [])
  }

  /** The values bound to the SET list's placeholders. */
  function BoundValues(progress: int, status: Option<DbStatus>): seq<SqlValue>
  {
    [Num(progress)] + (if status.Some? then [Text(StatusText(status.value))] else [])
  }

  const UpdateHead: string := "UPDATE generation_tasks SET "

  const WhereId: string := " WHERE id = ?"

  function UpdateSql(fields: seq<string>): string
  {
    UpdateHead + Join(fields, ", ") + WhereId
  }

  /** The statement `updateTaskProgress(taskId, progress, status)` executes. */
  function ProgressUpdate(taskId: int, progress: int, status: Option<DbStatus>): Statement
  {
    Statement(UpdateSql(SetFields(status)), BoundValues(progress, status) + [Num(taskId)])
  }

  lemma {:induction false} CountAbsent(s: string, c: char)
    requires c !in s
    ensures Count(s, c) == 0
    decreases |s|
  {
    if s != [] {
      assert c !in s[..|s| - 1] by {
        assert forall i :: 0 <= i < |s| - 1 ==> s[..|s| - 1][i] == s[i];
      }
      CountAbsent(s[..|s| - 1], c);
    }
  }

  /** A text with one `?`, at its end. */
  lemma CountLastMark(prefix: string)
    requires '?' !in prefix
    ensures Count(prefix + "?", '?') == 1
  {
    CountAppend(prefix, "?", '?');
    CountAbsent(prefix, '?');
    assert "?"[..0] == [];
  }

  lemma FieldMarks()
    ensures Count(ProgressField, '?') == 1 && Count(StatusField, '?') == 1
    ensures Count(CompletedAtField, '?') == 0 && Count(", ", '?') == 0
  {
    MarkedFields();
    CountAbsent(CompletedAtField, '?');
    CountAbsent(", ", '?');
  }

  lemma MarkedFields()
    ensures Count(ProgressField, '?') == 1 && Count(StatusField, '?') == 1
  {
    CountLastMark("progress = ");
    assert ProgressField == "progress = " + "?";
    CountLastMark("status = ");
    assert StatusField == "status = " + "?";
  }

  lemma JoinThree(a: string, b: string, c: string, sep: string)
    ensures Join([a, b], sep) == a + sep + b
    ensures Join([a, b, c], sep) == a + sep + b + sep + c
  {
    assert [a, b][..1] == [a];
    assert [a, b, c][..2] == [a, b];
  }

  /** The placeholders in the SET list, one for each bound value. */
  lemma SetListPlaceholders(status: Option<DbStatus>)
    ensures Count(Join(SetFields(status), ", "), '?') == |BoundValues(0, status)|
  {
    var fields := SetFields(status);
    FieldMarks();
    JoinThree(ProgressField, StatusField, CompletedAtField, ", ");
    CountAppend(ProgressField, ", ", '?');
    CountAppend(ProgressField + ", ", StatusField, '?');
    CountAppend(ProgressField + ", " + StatusField, ", ", '?');
    CountAppend(ProgressField + ", " + StatusField + ", ", CompletedAtField, '?');
    if status == Some(Completed) {
      assert fields == [ProgressField, StatusField, CompletedAtField];
    } else if status.Some? {
      assert fields == [ProgressField, StatusField];
    } else {
      assert fields == [ProgressField];
    }
  }

  /**
   * The SET list starts with `progress = ?`, has `status = ?` exactly when
   * a status is given, and the completion time exactly for `completed`.
   */
  lemma SetFieldsSpec(status: Option<DbStatus>)
    ensures var fields := SetFields(status);
            && fields[0] == ProgressField
            && (StatusField in fields <==> status.Some?)
            && (CompletedAtField in fields <==> status == Some(Completed))
  {
    assert StatusField != ProgressField && CompletedAtField != ProgressField && CompletedAtField != StatusField;
  }

  /**
   * The parameters are the progress, then the status if any, then the task
   * id: one for each `?` of the statement.
   */
  lemma ProgressUpdateParams(taskId: int, progress: int, status: Option<DbStatus>)
    ensures var st := ProgressUpdate(taskId, progress, status);
            && st.params[0] == Num(progress)
            && (status.Some? ==> st.params[1] == Text(StatusText(status.value)))
            && st.params[|st.params| - 1] == Num(taskId)
            && Count(st.sql, '?') == |st.params|
  {
    UpdateSqlMarks(status);
    assert |BoundValues(progress, status)| == |BoundValues(0, status)|;
  }

  /** The statement has the SET list's placeholders and the one of the WHERE clause. */
  lemma UpdateSqlMarks(status: Option<DbStatus>)
    ensures Count(UpdateSql(SetFields(status)), '?') == |BoundValues(0, status)| + 1
  {
    var setList := Join(SetFields(status), ", ");
    SetListPlaceholders(status);
    CountAbsent(UpdateHead, '?');
    CountLastMark(" WHERE id = ");
    assert WhereId == " WHERE id = " + "?";
    CountAppend(UpdateHead, setList, '?');
    CountAppend(UpdateHead + setList, WhereId, '?');
  }

  /** The SET list and parameters built with pushes, as `updateTaskProgress` does. */
  method BuildProgressUpdate(taskId: int, progress: int, status: Option<DbStatus>)
    returns (fields: seq<string>, sql: string, params: seq<SqlValue>)
    ensures fields == SetFields(status)
    ensures Statement(sql, params) == ProgressUpdate(taskId, progress, status)
  {
    fields := [ProgressField];
    var values := [Num(progress)];
    if status.Some? {
      fields := fields + [StatusField];
      values := values + [Text(StatusText(status.value))];
      if status.value == Completed {
        fields := fields + [CompletedAtField];
      }
    }
    sql := UpdateHead + Join(fields, ", ") + WhereId;
    params := values + [Num(taskId)];
  }

  // ---------------------------------------------------------------------
  // The module-level connection

  /** The module state of database.ts: the `db` handle and how often `Database.load` has run. */
  class DatabaseModule {
    var db: Connection?
    var loads: nat

    constructor()
      ensures db == null && loads == 0
    {
      db := null;
      loads := 0;
    }

    /**
     * `initDatabase()`: once the handle exists it is returned as it is;
     * otherwise the database is loaded once and the four tables created.
     */
    method InitDatabase() returns (c: Connection)
      modifies this
      ensures db == c
      ensures old(db) != null ==> c == old(db) && loads == old(loads) && unchanged(c)
      ensures old(db) == null ==> fresh(c) && c.url == DatabaseUrl && c.executed == SchemaStatements && loads == old(loads) + 1
    {
      if db != null {
        return db;
      }
      c := new Connection(DatabaseUrl);
      db := c;
      loads := loads + 1;
      c.Execute(CreateTableSql(Tables[0]), []);
      c.Execute(CreateTableSql(Tables[1]), []);
      c.Execute(CreateTableSql(Tables[2]), []);
      c.Execute(CreateTableSql(Tables[3]), []);
    }

    /** `getDatabase()`: the handle, initialising it first when there is none. */
    method GetDatabase() returns (c: Connection)
      modifies this
      ensures db == c
      ensures old(db) != null ==> c == old(db) && loads == old(loads) && unchanged(c)
      ensures old(db) == null ==> fresh(c) && c.url == DatabaseUrl && c.executed == SchemaStatements && loads == old(loads) + 1
    {
      if db == null {
        c := InitDatabase();
      }
      c := db;
    }

    /** `createProject({name, description})`: an absent description is bound as `""`. */
    method CreateProject(name: string, description: Option<string>)
      modifies this, db
      ensures db != null && (old(db) != null ==> db == old(db))
      ensures db.executed ==
        (if old(db) == null then SchemaStatements else old(db.executed))
        + [Statement(InsertProjectSql, [Text(name), Text(if description.Some? then description.value else "")])]
    {
      var c := GetDatabase();
      c.Execute(InsertProjectSql, [Text(name), Text(if description.Some? then description.value else "")]);
    }

    /** `updateTaskProgress(taskId, progress, status)`. */
    method UpdateTaskProgress(taskId: int, progress: int, status: Option<DbStatus>)
      modifies this, db
      ensures db != null && (old(db) != null ==> db == old(db))
      ensures db.executed ==
        (if old(db) == null then SchemaStatements else old(db.executed)) + [ProgressUpdate(taskId, progress, status)]
    {
      var c := GetDatabase();
      var fields, sql, params := BuildProgressUpdate(taskId, progress, status);
      c.Execute(sql, params);
    }
  }

  /** Initialising twice loads the database once and runs the schema once. */
  method InitTwice(m: DatabaseModule) returns (c1: Connection, c2: Connection)
    requires m.db == null
    modifies m
    ensures c1 == c2 && m.loads == old(m.loads) + 1 && c2.executed == SchemaStatements
  {
    c1 := m.InitDatabase();
    c2 := m.InitDatabase();
  }
}
