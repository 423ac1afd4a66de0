/**
 * The storage handle and the two services built on it (src/services.py).
 *
 * The SQLite engine is abstracted: a connection holds the `users` table as a
 * map from the primary key `screen_name` to `name`, or `None` while the file
 * has no such table yet.
 */
module Services {
  import opened Wrappers

  /** A row of `users(screen_name PRIMARY KEY, name)` as `get_user` returns it. */
  datatype User = User(screenName: string, name: string)

  /** Errors raised by the storage engine that this model distinguishes. */
  datatype StorageError = NoSuchTable

  /** The reason `apsw.Connection(filename=...)` raised. */
  datatype OpenError = CannotOpen(filename: string)

  /**
   * What the file system holds for a database file: whether the engine can
   * open it, and the `users` table already stored in it, if any.
   */
  datatype Disk = Disk(opens: bool, stored: Option<map<string, string>>)

  /** The three rows that a migration writes, keyed by `screen_name`. */
  const SEED_ROWS: map<string, string> :=
    map["foo" := "Test User Foo!", "bar" := "Test User Bar!", "baz" := "Test User Baz!"]

  /** One open connection to a database file. Services share it by reference. */
  class Connection {
    const filename: string
    var table: Option<map<string, string>>

    constructor (filename: string, stored: Option<map<string, string>>)
      ensures this.filename == filename && table == stored
    {
      this.filename := filename;
      table := stored;
    }

    /** `CREATE TABLE IF NOT EXISTS users (...)`: an existing table is kept as it is. */
    method CreateUsersTableIfNotExists()
      modifies this
      ensures table == Some(Existing(old(table)))
    {
      if table.None? {
        table := Some(map[]);
      }
    }

    /**
     * `REPLACE INTO users (screen_name, name) VALUES (key, name)`: insert the
     * row, or replace the row that already has this primary key.
     * The statement needs the table to exist.
     */
    method ReplaceInto(key: string, name: string)
      requires table.Some?
      modifies this
      ensures table == Some(old(table).value[key := name])
    {
      table := Some(table.value[key := name]);
    }
  }

  /** The rows of a table as `CREATE TABLE IF NOT EXISTS` leaves them. */
  function Existing(table: Option<map<string, string>>): (rows: map<string, string>)
    ensures table.Some? ==> rows == table.value
    ensures table.None? ==> rows == map[]
  {
    match table
    case Some(t) => t
    case None => map[]
  }

  /**
   * The `users` table after one migration of `table`: every seed key holds its
   * seed name, every other row is untouched, and no other key appears.
   */
  function Migrated(table: Option<map<string, string>>): (rows: map<string, string>)
    ensures forall k :: k in SEED_ROWS ==> k in rows && rows[k] == SEED_ROWS[k]
    ensures forall k :: k !in SEED_ROWS ==> (k in rows <==> k in Existing(table))
    ensures forall k :: k !in SEED_ROWS && k in rows ==> rows[k] == Existing(table)[k]
    ensures rows.Keys == Existing(table).Keys + SEED_ROWS.Keys
  {
    Existing(table) + SEED_ROWS
  }

  /** `apsw.Connection(filename=...)`: opens `disk` or raises. */
  method Open(filename: string, disk: Disk) returns (r: Result<Connection, OpenError>)
    ensures r.Ok? <==> disk.opens
    ensures r.Err? ==> r.error == CannotOpen(filename)
    ensures r.Ok? ==> fresh(r.value) && r.value.filename == filename && r.value.table == disk.stored
  {
    if !disk.opens {
      return Err(CannotOpen(filename));
    }
    var c := new Connection(filename, disk.stored);
    r := Ok(c);
  }

  /** `UserService`: read-only lookups of users over the shared connection. */
  class UserService {
    const db: Connection

    constructor (db: Connection)
      ensures this.db == db
    {
      this.db := db;
    }

    /**
     * `get_user`: the record stored under `screenName`, `None` when no row has
     * that key (the empty string is an ordinary key), or the engine's error
     * when the table does not exist. Being a function, it changes nothing.
     */
    function GetUser(screenName: string): (r: Result<Option<User>, StorageError>)
      reads db
      ensures r.Err? <==> db.table.None?
      ensures r.Ok? ==> (r.value.Some? <==> screenName in db.table.value)
      ensures r.Ok? && r.value.Some? ==> r.value.value == User(screenName, db.table.value[screenName])
    {
      match db.table
      case None => Err(NoSuchTable)
      case Some(rows) =>
        if screenName in rows then Ok(Some(User(screenName, rows[screenName]))) else Ok(None)
    }
  }

  /** `MigrationService`: creates the `users` table if needed and writes the seed rows. */
  class MigrationService {
    const db: Connection

    constructor (db: Connection)
      ensures this.db == db
    {
      this.db := db;
    }

    /**
     * `run`: create-if-absent, then three key-replacing upserts. It returns
     * `True` whatever the table held before, including after an earlier run.
     */
    method Run() returns (ok: bool)
      modifies db
      ensures ok
      ensures db.table == Some(Migrated(old(db.table)))
    {
      db.CreateUsersTableIfNotExists();
      db.ReplaceInto("foo", "Test User Foo!");
      db.ReplaceInto("bar", "Test User Bar!");
      db.ReplaceInto("baz", "Test User Baz!");
      UpsertsMigrate(Existing(old(db.table)));
      ok := true;
    }
  }

  /** The three upserts of `run`, in their order, write exactly the seed rows over `rows`. */
  lemma UpsertsMigrate(rows: map<string, string>)
    ensures rows["foo" := "Test User Foo!"]["bar" := "Test User Bar!"]["baz" := "Test User Baz!"]
            == Migrated(Some(rows))
  {
  }

  /** Migrating a table that has already been migrated changes nothing. */
  lemma MigratedIdempotent(table: Option<map<string, string>>)
    ensures Migrated(Some(Migrated(table))) == Migrated(table)
  {
  }

  /** The table after `n` consecutive migrations of `table`. */
  function MigrateTimes(table: Option<map<string, string>>, n: nat): Option<map<string, string>>
  {
    if n == 0 then table else Some(Migrated(MigrateTimes(table, n - 1)))
  }

  /** Any number of migrations, at least one, leaves the table of a single one. */
  lemma {:induction false} MigrateRepeatedly(table: Option<map<string, string>>, n: nat)
    requires n >= 1
    ensures MigrateTimes(table, n) == Some(Migrated(table))
  {
    if n > 1 {
      MigrateRepeatedly(table, n - 1);
      MigratedIdempotent(table);
    }
  }

  /**
   * After a migration every seed user is found under its key with its seed
   * name, whatever the table held before.
   */
  lemma SeedUsersFound(users: UserService, before: Option<map<string, string>>, key: string)
    requires users.db.table == Some(Migrated(before))
    requires key in SEED_ROWS
    ensures users.GetUser(key) == Ok(Some(User(key, SEED_ROWS[key])))
  {
  }

  /** A migration does not change what a lookup of any other key returns. */
  lemma OtherUsersUnchanged(users: UserService, before: map<string, string>, key: string)
    requires users.db.table == Some(Migrated(Some(before)))
    requires key !in SEED_ROWS
    ensures users.GetUser(key) == Ok(if key in before then Some(User(key, before[key])) else None)
  {
  }
}
