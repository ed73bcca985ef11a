/** The schema-migration runner of v1/migrations.go: it makes sure a `schemaVersion` counter
    exists in the `metadata` table, runs the migrations the counter has not yet reached, in
    order, and then records how many migrations there are. */
module MigrationRunner {
  import opened Base

  /** The statements the runner sends with `Exec`. */
  datatype Stmt =
    | CreateMetadata          // create the metadata table if it does not exist
    | InsertVersion           // insert ('schemaVersion', 0), doing nothing on conflict
    | UpdateVersion(to: int)  // set the value of 'schemaVersion'
    | Migration(sql: string)  // one schema change from the migration list

  const SchemaVersionKey := "schemaVersion"

  /** The migration list, in the order it is applied. */
  const Migrations: seq<string> := [
    "create table if not exists posts (\"imageUri\" text, \"tags\" text[])",
    "alter table posts add column \"id\" uuid primary key"
  ]

  /** What the model tracks of the database: whether the metadata table exists, its rows,
      and every statement sent to the server so far (in order, failed ones included). */
  datatype DbState = DbState(hasMetadata: bool, metadata: map<string, int>, sent: seq<Stmt>)

  /** The effect of a statement that succeeds. Migrations change other tables only. */
  function Effect(db: DbState, s: Stmt): (r: DbState)
    ensures r.sent == db.sent
    ensures s.CreateMetadata? ==> r.hasMetadata
    ensures !s.CreateMetadata? ==> r.hasMetadata == db.hasMetadata
    ensures s.InsertVersion? ==> SchemaVersionKey in r.metadata
    ensures SchemaVersionKey in db.metadata && !s.UpdateVersion? ==> r.metadata == db.metadata
    ensures SchemaVersionKey in db.metadata && s.UpdateVersion? ==> r.metadata == db.metadata[SchemaVersionKey := s.to]
    ensures SchemaVersionKey !in db.metadata && s.InsertVersion? ==> r.metadata == db.metadata[SchemaVersionKey := 0]
    ensures SchemaVersionKey !in db.metadata && !s.InsertVersion? ==> r.metadata == db.metadata
  {
    match s
    case CreateMetadata => db.(hasMetadata := true)
    case InsertVersion =>
      if SchemaVersionKey in db.metadata then db
      else db.(metadata := db.metadata[SchemaVersionKey := 0])
    case UpdateVersion(n) =>
      if SchemaVersionKey in db.metadata then db.(metadata := db.metadata[SchemaVersionKey := n])
      else db
    case Migration(_) => db
  }

  /** One `Exec`: the statement is sent; if the server reports no error it takes effect,
      otherwise (a single statement is atomic) nothing changes. */
  function ExecStep(db: DbState, s: Stmt, failure: Stmt -> Option<DbError>): (r: (DbState, Option<DbError>))
    ensures r.1 == failure(s)
    ensures r.0.sent == db.sent + [s]
    ensures r.1.Some? ==> r.0.metadata == db.metadata && r.0.hasMetadata == db.hasMetadata
  {
    var sent := db.(sent := db.sent + [s]);
    if failure(s).Some? then (sent, failure(s)) else (Effect(sent, s), None)
  }

  /** The value the runner reads back. When the scan fails its error is dropped and the
      variable keeps Go's zero value, 0; so does a missing row. */
  function ReadVersion(db: DbState, scanFailure: Option<DbError>): (v: int)
    ensures scanFailure.Some? ==> v == 0
    ensures scanFailure.None? && SchemaVersionKey in db.metadata ==> v == db.metadata[SchemaVersionKey]
  {
    if scanFailure.None? && SchemaVersionKey in db.metadata then db.metadata[SchemaVersionKey] else 0
  }

  /** How `Migrate` ends. A failed migration is reported with its position in the slice of
      pending migrations; a failed metadata statement is passed through as it is. A negative
      stored counter makes the slice expression panic. */
  datatype MigrateError = ExecFailed(cause: DbError) | MigrationFailed(index: int, cause: DbError)
  datatype Outcome = Migrated | Failed(error: MigrateError) | Panicked

  function MigrationStmts(pending: seq<string>): seq<Stmt>
  {
    seq(|pending|, i requires 0 <= i < |pending| => Migration(pending[i]))
  }

  /** The position of the first pending migration the server rejects, or |pending| if none. */
  function FirstFailure(pending: seq<string>, failure: Stmt -> Option<DbError>): (k: nat)
    ensures k <= |pending|
    ensures forall j :: 0 <= j < k ==> failure(Migration(pending[j])).None?
    ensures k < |pending| ==> failure(Migration(pending[k])).Some?
  {
    if pending == [] then 0
    else if failure(Migration(pending[0])).Some? then 0
    else 1 + FirstFailure(pending[1..], failure)
  }

  /** How many pending migrations the loop sends: those before the first failure, and the
      failing one itself. */
  function Attempted(pending: seq<string>, failure: Stmt -> Option<DbError>): (n: nat)
    ensures n <= |pending|
  {
    var k := FirstFailure(pending, failure);
    if k < |pending| then k + 1 else k
  }

  /** The loop over the pending migrations, `offset` being the loop index of pending[0]. */
  function RunMigrations(db: DbState, pending: seq<string>, offset: int, failure: Stmt -> Option<DbError>)
    : (r: (DbState, Option<MigrateError>))
    ensures |r.0.sent| >= |db.sent| && r.0.sent[..|db.sent|] == db.sent
    ensures r.1.Some? ==> r.1.value.MigrationFailed? && offset <= r.1.value.index < offset + |pending|
    decreases |pending|
  {
    if pending == [] then (db, None)
    else
      var (db', err) := ExecStep(db, Migration(pending[0]), failure);
      if err.Some? then (db', Some(MigrationFailed(offset, err.value)))
      else RunMigrations(db', pending[1..], offset + 1, failure)
  }

  /** The loop touches no metadata. */
  lemma {:induction false} RunMigrationsKeepsMetadata(db: DbState, pending: seq<string>, offset: int, failure: Stmt -> Option<DbError>)
    ensures RunMigrations(db, pending, offset, failure).0.metadata == db.metadata
    ensures RunMigrations(db, pending, offset, failure).0.hasMetadata == db.hasMetadata
    decreases |pending|
  {
    if pending != [] && failure(Migration(pending[0])).None? {
      RunMigrationsKeepsMetadata(ExecStep(db, Migration(pending[0]), failure).0, pending[1..], offset + 1, failure);
    }
  }

  /** The loop sends the migrations in order, up to and including the first one the server
      rejects, and no later one. */
  lemma {:induction false} RunMigrationsSendsInOrder(db: DbState, pending: seq<string>, offset: int, failure: Stmt -> Option<DbError>)
    ensures RunMigrations(db, pending, offset, failure).0.sent
         == db.sent + MigrationStmts(pending[..Attempted(pending, failure)])
    decreases |pending|
  {
    if pending == [] {
      assert MigrationStmts(pending[..0]) == [];
    } else if failure(Migration(pending[0])).Some? {
      assert MigrationStmts(pending[..1]) == [Migration(pending[0])];
    } else {
      var db' := ExecStep(db, Migration(pending[0]), failure).0;
      RunMigrationsSendsInOrder(db', pending[1..], offset + 1, failure);
      var n := Attempted(pending[1..], failure);
      assert Attempted(pending, failure) == n + 1;
      assert MigrationStmts(pending[..n + 1]) == [Migration(pending[0])] + MigrationStmts(pending[1..][..n]);
    }
  }

  /** The loop reports the first failing migration with its loop index, and succeeds exactly
      when no migration fails. */
  lemma {:induction false} RunMigrationsReportsFirstFailure(db: DbState, pending: seq<string>, offset: int, failure: Stmt -> Option<DbError>)
    ensures var k := FirstFailure(pending, failure);
      RunMigrations(db, pending, offset, failure).1
        == if k < |pending| then Some(MigrationFailed(offset + k, failure(Migration(pending[k])).value)) else None
    decreases |pending|
  {
    if pending != [] && failure(Migration(pending[0])).None? {
      RunMigrationsReportsFirstFailure(ExecStep(db, Migration(pending[0]), failure).0, pending[1..], offset + 1, failure);
    }
  }

  /** `Migrate` as a function of the database it starts from. */
  function Migrate(db: DbState, migrations: seq<string>, failure: Stmt -> Option<DbError>, scanFailure: Option<DbError>)
    : (r: (DbState, Outcome))
    ensures |r.0.sent| > |db.sent| && r.0.sent[..|db.sent|] == db.sent && r.0.sent[|db.sent|] == CreateMetadata
    ensures r.1.Failed? && r.1.error.MigrationFailed? ==> 0 <= r.1.error.index < |migrations|
  {
    var (db1, e1) := ExecStep(db, CreateMetadata, failure);
    if e1.Some? then (db1, Failed(ExecFailed(e1.value)))
    else
      var (db2, e2) := ExecStep(db1, InsertVersion, failure);
      if e2.Some? then (db2, Failed(ExecFailed(e2.value)))
      else
        var v := ReadVersion(db2, scanFailure);
        if v >= |migrations| then (db2, Migrated)
        else if v < 0 then (db2, Panicked)
        else
          var (db3, e3) := RunMigrations(db2, migrations[v..], 0, failure);
          if e3.Some? then (db3, Failed(e3.value))
          else
            var (db4, e4) := ExecStep(db3, UpdateVersion(|migrations|), failure);
            if e4.Some? then (db4, Failed(ExecFailed(e4.value))) else (db4, Migrated)
  }

  /** The database after the two initialisation statements both succeed. */
  function Initialised(db: DbState): DbState
  {
    DbState(true,
            if SchemaVersionKey in db.metadata then db.metadata else db.metadata[SchemaVersionKey := 0],
            db.sent + [CreateMetadata, InsertVersion])
  }

  lemma InitialisationSteps(db: DbState, failure: Stmt -> Option<DbError>)
    requires failure(CreateMetadata).None?
    ensures ExecStep(db, CreateMetadata, failure).0 == db.(hasMetadata := true, sent := db.sent + [CreateMetadata])
    ensures var db1 := ExecStep(db, CreateMetadata, failure).0;
      ExecStep(db1, InsertVersion, failure).0
        == if failure(InsertVersion).Some? then db.(hasMetadata := true, sent := db.sent + [CreateMetadata, InsertVersion])
           else Initialised(db)
  {
    assert db.sent + [CreateMetadata] + [InsertVersion] == db.sent + [CreateMetadata, InsertVersion];
  }

  /** Initialisation creates the counter with value 0 only when it is absent; an existing
      counter keeps its value. When either statement fails, `Migrate` stops with that error
      and has changed no metadata. */
  lemma InitialisationKeepsExistingVersion(db: DbState, migrations: seq<string>, failure: Stmt -> Option<DbError>, scanFailure: Option<DbError>)
    ensures var r := Migrate(db, migrations, failure, scanFailure);
      if failure(CreateMetadata).Some? then
        r == (db.(sent := db.sent + [CreateMetadata]), Failed(ExecFailed(failure(CreateMetadata).value)))
      else if failure(InsertVersion).Some? then
        r == (db.(hasMetadata := true, sent := db.sent + [CreateMetadata, InsertVersion]),
              Failed(ExecFailed(failure(InsertVersion).value)))
      else
        var before := if SchemaVersionKey in db.metadata then db.metadata[SchemaVersionKey] else 0;
        && r.0.hasMetadata
        && SchemaVersionKey in r.0.metadata
        && (r.0.metadata[SchemaVersionKey] == before || r.0.metadata[SchemaVersionKey] == |migrations|)
        && (r.0.metadata[SchemaVersionKey] != before ==> r.1 == Migrated)
  {
    if failure(CreateMetadata).None? {
      InitialisationSteps(db, failure);
    }

    if failure(CreateMetadata).None? && failure(InsertVersion).None? {
      var v := ReadVersion(Initialised(db), scanFailure);
      if 0 <= v < |migrations| {
        PendingMigrationsRunInOrder(db, migrations, failure, scanFailure);
      }
    }
  }

  /** When the counter read back is at least the number of migrations, `Migrate` succeeds
      after the two initialisation statements, sending no migration and writing no counter. */
  lemma UpToDateSendsNothing(db: DbState, migrations: seq<string>, failure: Stmt -> Option<DbError>, scanFailure: Option<DbError>)
    requires failure(CreateMetadata).None? && failure(InsertVersion).None?
    requires ReadVersion(Initialised(db), scanFailure) >= |migrations|
    ensures Migrate(db, migrations, failure, scanFailure) == (Initialised(db), Migrated)
  {
    InitialisationSteps(db, failure);
  }

  /** Past initialisation with a counter v in 0..|migrations|-1, `Migrate` sends exactly
      migrations[v..] in ascending order, stopping after the first one that fails; then,
      only if none failed, it writes |migrations| to the counter. A failure is reported with
      the failing migration's index counted from v, and leaves the counter as initialised. */
  lemma PendingMigrationsRunInOrder(db: DbState, migrations: seq<string>, failure: Stmt -> Option<DbError>, scanFailure: Option<DbError>)
    requires failure(CreateMetadata).None? && failure(InsertVersion).None?
    requires 0 <= ReadVersion(Initialised(db), scanFailure) < |migrations|
    ensures var v := ReadVersion(Initialised(db), scanFailure);
      var pending := migrations[v..];
      var k := FirstFailure(pending, failure);
      var r := Migrate(db, migrations, failure, scanFailure);
      if k < |pending| then
        && r.1 == Failed(MigrationFailed(k, failure(Migration(migrations[v + k])).value))
        && r.0.sent == db.sent + [CreateMetadata, InsertVersion] + MigrationStmts(migrations[v..v + k + 1])
        && r.0.metadata == Initialised(db).metadata
        && r.0.hasMetadata
      else
        && r.0.sent == db.sent + [CreateMetadata, InsertVersion] + MigrationStmts(pending) + [UpdateVersion(|migrations|)]
        && (r.1 == Migrated <==> failure(UpdateVersion(|migrations|)).None?)
        && r.0.hasMetadata
        && r.0.metadata == if r.1 == Migrated then Initialised(db).metadata[SchemaVersionKey := |migrations|]
                           else Initialised(db).metadata
  {
    InitialisationSteps(db, failure);
    var v := ReadVersion(Initialised(db), scanFailure);
    var pending := migrations[v..];
    RunMigrationsKeepsMetadata(Initialised(db), pending, 0, failure);
    RunMigrationsSendsInOrder(Initialised(db), pending, 0, failure);
    RunMigrationsReportsFirstFailure(Initialised(db), pending, 0, failure);
    var k := FirstFailure(pending, failure);
    if k < |pending| {
      assert pending[..Attempted(pending, failure)] == migrations[v..v + k + 1];
    } else {
      assert pending[..Attempted(pending, failure)] == pending;
    }
  }

  /** A failed scan of a counter that is already above |migrations| makes a run in which
      every statement succeeds write |migrations| over it: the counter goes down. */
  lemma {:induction false} ScanFailureLowersCounter(db: DbState, migrations: seq<string>, failure: Stmt -> Option<DbError>, e: DbError)
    requires failure(CreateMetadata).None? && failure(InsertVersion).None?
    requires |migrations| > 0
    requires SchemaVersionKey in db.metadata && db.metadata[SchemaVersionKey] > |migrations|
    requires FirstFailure(migrations, failure) == |migrations|
    requires failure(UpdateVersion(|migrations|)).None?
    ensures var r := Migrate(db, migrations, failure, Some(e));
      && r.1 == Migrated
      && SchemaVersionKey in r.0.metadata
      && r.0.metadata[SchemaVersionKey] == |migrations| < db.metadata[SchemaVersionKey]
  {
    InitialisationSteps(db, failure);
    PendingMigrationsRunInOrder(db, migrations, failure, Some(e));
  }

  /** A negative counter read back makes `Migrate` stop after initialisation: the Go slice
      expression `migrations[v:]` panics on a negative index. */
  lemma NegativeCounterPanics(db: DbState, migrations: seq<string>, failure: Stmt -> Option<DbError>)
    requires failure(CreateMetadata).None? && failure(InsertVersion).None?
    requires SchemaVersionKey in db.metadata && db.metadata[SchemaVersionKey] < 0
    ensures Migrate(db, migrations, failure, None) == (Initialised(db), Panicked)
  {
    InitialisationSteps(db, failure);
  }

  /** With the counter read correctly, it never decreases: it is written only when it is
      below |migrations|, and then to |migrations|. */
  lemma CounterNeverDecreases(db: DbState, migrations: seq<string>, failure: Stmt -> Option<DbError>)
    requires SchemaVersionKey in db.metadata
    ensures var r := Migrate(db, migrations, failure, None);
      SchemaVersionKey in r.0.metadata && r.0.metadata[SchemaVersionKey] >= db.metadata[SchemaVersionKey]
  {
    if failure(CreateMetadata).None? {
      InitialisationSteps(db, failure);
    }

    if failure(CreateMetadata).None? && failure(InsertVersion).None? {
      var v := ReadVersion(Initialised(db), None);
      if 0 <= v < |migrations| {
        PendingMigrationsRunInOrder(db, migrations, failure, None);
      }
    }
  }

  /** A second `Migrate` after a successful one, with the counter read correctly, sends only
      the two initialisation statements and changes no metadata. */
  lemma SecondRunIsNoOp(db: DbState, migrations: seq<string>, failure: Stmt -> Option<DbError>, scanFailure: Option<DbError>,
                        failure': Stmt -> Option<DbError>)
    requires |migrations| > 0
    requires Migrate(db, migrations, failure, scanFailure).1 == Migrated
    requires failure'(CreateMetadata).None? && failure'(InsertVersion).None?
    ensures var db1 := Migrate(db, migrations, failure, scanFailure).0;
      Migrate(db1, migrations, failure', None)
        == (db1.(sent := db1.sent + [CreateMetadata, InsertVersion]), Migrated)
  {
    var db1 := Migrate(db, migrations, failure, scanFailure).0;
    InitialisationSteps(db, failure);
    var v := ReadVersion(Initialised(db), scanFailure);
    if 0 <= v < |migrations| {
      PendingMigrationsRunInOrder(db, migrations, failure, scanFailure);
    }
    assert SchemaVersionKey in db1.metadata && db1.metadata[SchemaVersionKey] >= |migrations|;
    assert Initialised(db1) == db1.(sent := db1.sent + [CreateMetadata, InsertVersion]);
    InitialisationSteps(db1, failure');
  }

  /** The scan error is lost: when the counter cannot be read, `Migrate` starts again from the
      first migration, however far the stored counter already is, and sends the migrations
      in order up to and including the first one that fails. */
  lemma ScanFailureRerunsFromFirst(db: DbState, migrations: seq<string>, failure: Stmt -> Option<DbError>, e: DbError)
    requires failure(CreateMetadata).None? && failure(InsertVersion).None?
    requires |migrations| > 0
    ensures var r := Migrate(db, migrations, failure, Some(e));
      |r.0.sent| > |db.sent| + 2 && r.0.sent[|db.sent| + 2] == Migration(migrations[0])
    ensures var r := Migrate(db, migrations, failure, Some(e));
      var n := Attempted(migrations, failure);
      && |r.0.sent| >= |db.sent| + 2 + n
      && r.0.sent[..|db.sent| + 2 + n] == db.sent + [CreateMetadata, InsertVersion] + MigrationStmts(migrations[..n])
  {
    InitialisationSteps(db, failure);
    PendingMigrationsRunInOrder(db, migrations, failure, Some(e));
    var n := Attempted(migrations, failure);
    var prefix := db.sent + [CreateMetadata, InsertVersion] + MigrationStmts(migrations[..n]);
    if FirstFailure(migrations, failure) < |migrations| {
      assert migrations[0..0 + FirstFailure(migrations, failure) + 1] == migrations[..n];
    } else {
      assert migrations[..n] == migrations;
      assert Migrate(db, migrations, failure, Some(e)).0.sent == prefix + [UpdateVersion(|migrations|)];
    }
  }

  /** The database connection: its state, and the server's verdict on each statement and on
      the scan of the counter row. */
  class Connection {
    var hasMetadata: bool
    var metadata: map<string, int>
    var sent: seq<Stmt>
    const failure: Stmt -> Option<DbError>
    const scanFailure: Option<DbError>

    constructor (db: DbState, failure: Stmt -> Option<DbError>, scanFailure: Option<DbError>)
      ensures State() == db && this.failure == failure && this.scanFailure == scanFailure
    {
      hasMetadata, metadata, sent := db.hasMetadata, db.metadata, db.sent;
      this.failure, this.scanFailure := failure, scanFailure;
    }

    function State(): DbState
      reads this
    {
      DbState(hasMetadata, metadata, sent)
    }

    method Exec(s: Stmt) returns (err: Option<DbError>)
      modifies this
      ensures (State(), err) == ExecStep(old(State()), s, failure)
    {
      sent := sent + [s];
      err := failure(s);
      if err.None? {
        var db := Effect(State(), s);
        hasMetadata, metadata := db.hasMetadata, db.metadata;
      }
    }

    /** `QueryRow(...).Scan(&schemaVersion)` with the scan error discarded. */
    method QueryVersion() returns (v: int)
      ensures v == ReadVersion(State(), scanFailure)
    {
      v := 0;
      if scanFailure.None? && SchemaVersionKey in metadata {
        v := metadata[SchemaVersionKey];
      }
    }
  }

  /** v1/migrations.go `Migrate`, step by step over the connection. */
  method MigrateConnection(conn: Connection) returns (outcome: Outcome)
    modifies conn
    ensures (conn.State(), outcome) == Migrate(old(conn.State()), Migrations, conn.failure, conn.scanFailure)
  {
    var err := conn.Exec(CreateMetadata);
    if err.Some? {
      return Failed(ExecFailed(err.value));
    }
    err := conn.Exec(InsertVersion);
    if err.Some? {
      return Failed(ExecFailed(err.value));
    }
    ghost var initialised := conn.State();
    var schemaVersion := conn.QueryVersion();
    if schemaVersion >= |Migrations| {
      return Migrated;
    }
    if schemaVersion < 0 {
      return Panicked;
    }
    var pending := Migrations[schemaVersion..];
    var index := 0;
    while index < |pending|
      invariant 0 <= index <= |pending|
      invariant RunMigrations(conn.State(), pending[index..], index, conn.failure)
             == RunMigrations(initialised, pending, 0, conn.failure)
    {
      err := conn.Exec(Migration(pending[index]));
      if err.Some? {
        return Failed(MigrationFailed(index, err.value));
      }
      index := index + 1;
    }
    err := conn.Exec(UpdateVersion(|Migrations|));
    if err.Some? {
      return Failed(ExecFailed(err.value));
    }
    return Migrated;
  }
}
