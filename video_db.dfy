/**
 * The one-row SQLite store of the package bot (`bot/db.py`). The database file is
 * an object of its own, because every `VideoStorage` method opens a new connection
 * to the same path: handles on one path share one table. The table is a map from
 * the primary key to its row; `None` means the table has not been created yet.
 *
 * The functions `Initialized`, `Upserted` and `FileIdOf` give the meaning of the
 * schema statement and the two queries; the class methods are proved to follow
 * them, and the lemmas about them cover runs of operations.
 */
module VideoDb {
  import opened Wrappers

  /** A row of `stored_video`: `file_id` and the ISO `created_at` timestamp. */
  datatype Row = Row(fileId: string, createdAt: string)

  /** The table keyed by `id`. */
  type Rows = map<int, Row>

  /** `CHECK (id = 1)` on the primary key: the only key a row can have is 1. */
  predicate OneRowTable(rows: Rows) {
    forall id :: id in rows ==> id == 1
  }

  /** `CREATE TABLE IF NOT EXISTS`: an empty table if there was none, otherwise the table unchanged. */
  function Initialized(table: Option<Rows>): Option<Rows> {
    if table.None? then Some(map[]) else table
  }

  /** The `INSERT ... ON CONFLICT(id) DO UPDATE` of row 1. */
  function Upserted(rows: Rows, fileId: string, now: string): Rows {
    rows[1 := Row(fileId, now)]
  }

  /** `SELECT file_id FROM stored_video WHERE id = 1`. */
  function FileIdOf(rows: Rows): Option<string> {
    if 1 in rows then Some(rows[1].fileId) else None
  }

  /** A freshly created table holds no row. */
  lemma FreshTableIsEmpty()
    ensures Initialized(None).Some? && FileIdOf(Initialized(None).value) == None
  {
  }

  /** Re-running the schema statement keeps an existing table and its row. */
  lemma ReinitializeKeepsRow(rows: Rows)
    ensures Initialized(Some(rows)) == Some(rows)
    ensures Initialized(Initialized(None)) == Initialized(None)
  {
  }

  /**
   * An upsert into a valid table leaves exactly one row, row 1, holding the new file id
   * and timestamp (both columns are replaced), and a query then returns that file id.
   */
  lemma UpsertReplacesRow(rows: Rows, fileId: string, now: string)
    requires OneRowTable(rows)
    ensures Upserted(rows, fileId, now) == map[1 := Row(fileId, now)]
    ensures OneRowTable(Upserted(rows, fileId, now))
    ensures FileIdOf(Upserted(rows, fileId, now)) == Some(fileId)
  {
    var r := Upserted(rows, fileId, now);
    assert forall id :: id in r <==> id == 1;
    assert r.Keys == {1};
  }

  /** The operations that reach the table. */
  datatype DbOp = Initialize | Upsert(fileId: string, now: string) | Query

  function Apply(table: Option<Rows>, op: DbOp): Option<Rows> {
    match op
    case Initialize => Initialized(table)
    case Upsert(fileId, now) => if table.Some? then Some(Upserted(table.value, fileId, now)) else table
    case Query => table
  }

  /** The operations applied one after another to a table that exists. */
  function ApplyAll(table: Option<Rows>, ops: seq<DbOp>): Option<Rows>
    decreases |ops|
  {
    if ops == [] then table else ApplyAll(Apply(table, ops[0]), ops[1..])
  }

  /** Every operation keeps the one-row constraint and keeps an existing table. */
  lemma {:induction false} ApplyAllKeepsOneRow(table: Option<Rows>, ops: seq<DbOp>)
    requires table.Some? && OneRowTable(table.value)
    ensures ApplyAll(table, ops).Some? && OneRowTable(ApplyAll(table, ops).value)
    decreases |ops|
  {
    if ops != [] {
      var next := Apply(table, ops[0]);
      if ops[0].Upsert? {
        UpsertReplacesRow(table.value, ops[0].fileId, ops[0].now);
      }
      assert next.Some? && OneRowTable(next.value);
      ApplyAllKeepsOneRow(next, ops[1..]);
    }
  }

  /** There is no delete: once row 1 holds a video, every later run of operations still has one. */
  lemma {:induction false} NoDeleteOnceStored(table: Option<Rows>, ops: seq<DbOp>)
    requires table.Some? && FileIdOf(table.value).Some?
    ensures ApplyAll(table, ops).Some? && FileIdOf(ApplyAll(table, ops).value).Some?
    decreases |ops|
  {
    if ops != [] {
      NoDeleteOnceStored(Apply(table, ops[0]), ops[1..]);
    }
  }

  /** The file id of the last upsert in `ops`, or `initial` when there is none. */
  function LastUpserted(initial: Option<string>, ops: seq<DbOp>): Option<string>
    decreases |ops|
  {
    if ops == [] then initial
    else if ops[|ops| - 1].Upsert? then Some(ops[|ops| - 1].fileId)
    else LastUpserted(initial, ops[..|ops| - 1])
  }

  lemma {:induction false} ApplyAllSnoc(table: Option<Rows>, ops: seq<DbOp>, op: DbOp)
    ensures ApplyAll(table, ops + [op]) == Apply(ApplyAll(table, ops), op)
    decreases |ops|
  {
    if ops != [] {
      assert (ops + [op])[1..] == ops[1..] + [op];
      ApplyAllSnoc(Apply(table, ops[0]), ops[1..], op);
    }
  }

  /** On an existing table, a query after any run of operations returns the file id of the last upsert. */
  lemma {:induction false} LastUpsertWins(rows: Rows, ops: seq<DbOp>)
    ensures ApplyAll(Some(rows), ops).Some?
    ensures FileIdOf(ApplyAll(Some(rows), ops).value) == LastUpserted(FileIdOf(rows), ops)
    decreases |ops|
  {
    if ops != [] {
      var init := ops[..|ops| - 1];
      var op := ops[|ops| - 1];
      assert ops == init + [op];
      ApplyAllSnoc(Some(rows), init, op);
      LastUpsertWins(rows, init);
    }
  }

  /** The database file at one path: its `stored_video` table, if created. */
  class DatabaseFile {
    var table: Option<Rows>

    /** Tables in the file satisfy the schema's check constraint. */
    ghost predicate Valid()
      reads this
    {
      table.Some? ==> OneRowTable(table.value)
    }

    /** A database file as found at the path: possibly without the table yet. */
    constructor (table: Option<Rows>)
      requires table.Some? ==> OneRowTable(table.value)
      ensures this.table == table && Valid()
    {
      this.table := table;
    }
  }

  /** `VideoStorage`: a handle on the database file at `database_path`. */
  class VideoStorage {
    const db: DatabaseFile

    ghost predicate Valid()
      reads this, db
    {
      db.table.Some? && OneRowTable(db.table.value)
    }

    /** The file id row 1 holds, as a query would return it. */
    ghost function Stored(): Option<string>
      reads this, db
      requires Valid()
    {
      FileIdOf(db.table.value)
    }

    /** `__init__`: open the file and run `_initialize`. */
    constructor (db: DatabaseFile)
      requires db.Valid()
      modifies db
      ensures this.db == db && Valid()
      ensures db.table == Initialized(old(db.table))
    {
      this.db := db;
      new;
      Initialize();
    }

    /** `_initialize`: create the table if it does not exist yet. */
    method Initialize()
      requires db.Valid()
      modifies db
      ensures Valid()
      ensures db.table == Initialized(old(db.table))
    {
      if db.table.None? {
        db.table := Some(map[]);
      }
    }

    /** `upsert_video`: row 1 becomes `(file_id, now)`; `now` is the caller's `utcnow().isoformat()`. */
    method UpsertVideo(fileId: string, now: string)
      requires Valid()
      modifies db
      ensures Valid()
      ensures db.table == Some(Upserted(old(db.table.value), fileId, now))
      ensures Stored() == Some(fileId)
    {
      UpsertReplacesRow(db.table.value, fileId, now);
      db.table := Some(db.table.value[1 := Row(fileId, now)]);
    }

    /** `get_video_file_id`: the file id in row 1, or `None` when there is no row. */
    method GetVideoFileId() returns (fileId: Option<string>)
      requires Valid()
      ensures fileId == Stored()
      ensures fileId.Some? <==> db.table.value != map[]
    {
      var rows := db.table.value;
      fileId := if 1 in rows then Some(rows[1].fileId) else None;
      if 1 !in rows {
        assert forall id :: id !in rows;
        assert rows.Keys == {};
      }
    }

    /** `has_video`: whether a query returns a file id. */
    method HasVideo() returns (present: bool)
      requires Valid()
      ensures present <==> Stored().Some?
    {
      var fileId := GetVideoFileId();
      present := fileId.Some?;
    }
  }
}
