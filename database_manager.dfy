/**
 * DatabaseManager: the one shared wrapper around an sqlite3 connection.
 * The connection is modelled by what it can see (the committed file plus
 * its own uncommitted changes) and whether a transaction is open; sqlite3's
 * legacy transaction handling opens one implicitly before any INSERT or
 * UPDATE, and only commit() makes changes reach the file.
 */
module Database {
  import opened Wrappers
  import opened Schema
  import opened Store
  import opened Queries
  import opened Text

  const DefaultDatabaseName: string := "transport_app.db"

  /** An open sqlite3 connection: its view of the tables and whether a
    * transaction is open on it. */
  datatype Connection = Connection(inTransaction: bool, view: Tables)

  /** How sqlite3.connect and the two PRAGMAs after it turn out. */
  datatype ConnectResult = Opened | OpenFails | PragmaFails

  /** What the world answers on one call: the result of connecting, if the
    * call connects, and whether each statement runs (false: an error
    * other than a constraint violation, such as a locked database). */
  datatype Env = Env(connect: ConnectResult, statementOk: bool)

  /** The exceptions that leave a method. */
  datatype Raised =
    | AttributeError              // a method called on self.conn while it is None
    | OperationalError            // BEGIN inside a transaction, or a failing statement
    | ValueError(message: string) // raised by insert_commuter

  // -------------------------------------------- one statement, as a function

  /** execute_insert_update_delete on an open connection: the connection
    * afterwards, the file afterwards, and the returned flag. */
  function RunStatement(c: Connection, file: Tables, s: Statement, commit: bool, statementOk: bool)
    : (r: (Connection, Tables, bool))
    ensures r.2 <==> statementOk && Apply(c.view, s).Ok?
    ensures commit ==> !r.0.inTransaction && r.0.view == r.1
    ensures commit && r.2 ==> r.1 == Apply(c.view, s).value
    ensures commit && !r.2 ==> r.1 == file
    ensures !commit ==> r.0.inTransaction && r.1 == file
    ensures !commit && r.2 ==> r.0.view == Apply(c.view, s).value
    ensures !commit && !r.2 ==> r.0.view == c.view
  {
    var outcome := if statementOk then Apply(c.view, s) else Err(CheckViolation);
    match outcome
    case Ok(t) =>
      if commit then (Connection(false, t), t, true)
      else (Connection(true, t), file, true)
    case Err(_) =>
      if commit then (Connection(false, file), file, false)
      else (Connection(true, c.view), file, false)
  }

  /** With commit=False the file never changes, whatever the outcome. */
  lemma UncommittedStatementKeepsFile(c: Connection, file: Tables, s: Statement, ok: bool)
    ensures RunStatement(c, file, s, false, ok).1 == file
    ensures RunStatement(c, file, s, false, ok).0.inTransaction
  {
  }

  /** A statement that succeeds with commit=True is in the file, together
    * with whatever the connection had not yet committed. */
  lemma CommittedStatementReachesFile(c: Connection, file: Tables, s: Statement, ok: bool)
    requires RunStatement(c, file, s, true, ok).2
    ensures Apply(c.view, s).Ok?
    ensures RunStatement(c, file, s, true, ok).1 == Apply(c.view, s).value
    ensures !RunStatement(c, file, s, true, ok).0.inTransaction
  {
  }

  /** A failure with commit=True rolls back: the connection sees the file
    * again, losing every change not yet committed, not just this one. */
  lemma FailedCommitRollsBack(c: Connection, file: Tables, s: Statement, ok: bool)
    requires !RunStatement(c, file, s, true, ok).2
    ensures RunStatement(c, file, s, true, ok).0 == Connection(false, file)
    ensures RunStatement(c, file, s, true, ok).1 == file
  {
  }

  /** A failure with commit=False undoes only the statement and leaves the
    * transaction open. */
  lemma FailedUncommittedKeepsView(c: Connection, file: Tables, s: Statement, ok: bool)
    requires !RunStatement(c, file, s, false, ok).2
    ensures RunStatement(c, file, s, false, ok).0 == Connection(true, c.view)
  {
  }

  /** Two statements without commit inside an open transaction: the file
    * is untouched, and both flags are true exactly when the second
    * statement succeeds on the result of the first. */
  lemma TwoUncommittedStatements(start: Tables, s1: Statement, s2: Statement, ok1: bool, ok2: bool)
    ensures var r1 := RunStatement(Connection(true, start), start, s1, false, ok1);
            var r2 := RunStatement(r1.0, r1.1, s2, false, ok2);
      && r2.1 == start && r2.0.inTransaction
      && (r1.2 && r2.2 <==> ok1 && ok2 && Apply(start, s1).Ok? && Apply(Apply(start, s1).value, s2).Ok?)
      && (r1.2 && r2.2 ==> r2.0.view == Apply(Apply(start, s1).value, s2).value)
  {
  }

  /** The flag is true exactly when the statement ran and broke no constraint. */
  lemma StatementFlag(c: Connection, file: Tables, s: Statement, commit: bool, ok: bool)
    ensures RunStatement(c, file, s, commit, ok).2 <==> ok && Apply(c.view, s).Ok?
  {
  }

  /** Whether a query issued now reaches the database: there is a
    * connection already or one can be made, and the statement runs. */
  predicate QueryRuns(conn: Option<Connection>, env: Env) {
    (conn.Some? || env.connect == Opened) && env.statementOk
  }

  /** Row [0] of a result, or None for no rows. */
  function Head<T>(rows: seq<T>): Option<T> {
    if rows == [] then None else Some(rows[0])
  }

  // ------------------------------------------------------------ the manager

  class DatabaseManager {
    var databaseName: string
    /** self.conn: None, or an open connection. */
    var conn: Option<Connection>
    /** The committed contents of the database file. */
    var file: Tables

    /** The file and every view keep the schema's constraints, and a
      * connection with no open transaction sees exactly the file. */
    predicate Valid()
      reads this
    {
      && Consistent(file)
      && (conn.Some? ==> Consistent(conn.value.view))
      && (conn.Some? && !conn.value.inTransaction ==> conn.value.view == file)
    }

    /** __init__ on a fresh object; `disk` is what the file holds. */
    constructor(name: string, disk: Tables)
      requires Consistent(disk)
      ensures Valid()
      ensures databaseName == name && conn.None? && file == disk
    {
      databaseName := name;
      conn := None;
      file := disk;
    }

    /** __init__ run again on the shared instance: the connection object is
      * dropped without commit, so its uncommitted changes are lost. */
    method Init(name: string)
      modifies this
      requires Valid()
      ensures Valid()
      ensures databaseName == name && conn.None? && file == old(file)
    {
      databaseName := name;
      conn := None;
    }

    /** connect: self.conn is assigned before the PRAGMAs run, so a failing
      * PRAGMA leaves a connection in place and still returns False. */
    method Connect(env: Env) returns (ok: bool)
      modifies this
      requires Valid()
      ensures Valid()
      ensures databaseName == old(databaseName) && file == old(file)
      ensures ok <==> env.connect == Opened
      ensures env.connect == OpenFails ==> conn == old(conn)
      ensures env.connect != OpenFails ==> conn == Some(Connection(false, file))
    {
      if env.connect == OpenFails {
        return false;
      }
      conn := Some(Connection(false, file));
      ok := env.connect == Opened;
    }

    /** close: discards what the connection had not committed; nothing
      * happens when it is already closed. */
    method Close()
      modifies this
      requires Valid()
      ensures Valid()
      ensures databaseName == old(databaseName) && file == old(file) && conn.None?
    {
      if conn.Some? {
        conn := None;
      }
    }

    /** ensure_connection: connects only when there is no connection. */
    method EnsureConnection(env: Env) returns (ok: bool)
      modifies this
      requires Valid()
      ensures Valid()
      ensures databaseName == old(databaseName) && file == old(file)
      ensures old(conn).Some? ==> ok && conn == old(conn)
      ensures old(conn).None? ==> (ok <==> env.connect == Opened)
      ensures old(conn).None? && env.connect == OpenFails ==> conn.None?
      ensures old(conn).None? && env.connect != OpenFails ==> conn == Some(Connection(false, file))
      ensures ok ==> conn.Some?
    {
      if conn.None? {
        ok := Connect(env);
      } else {
        ok := true;
      }
    }

    /** execute_query: None when no connection can be made or the statement
      * fails, and otherwise every row the query selects from what the
      * connection sees. */
    method ExecuteQuery<R>(query: Tables -> seq<R>, env: Env) returns (rows: Option<seq<R>>)
      modifies this
      requires Valid()
      ensures Valid()
      ensures databaseName == old(databaseName) && file == old(file)
      ensures old(conn).Some? ==> conn == old(conn)
      ensures old(conn).None? ==> conn == if env.connect == OpenFails then None else Some(Connection(false, file))
      ensures rows.Some? <==> QueryRuns(old(conn), env)
      ensures rows.Some? ==> conn.Some? && rows.value == query(conn.value.view)
    {
      var ok := EnsureConnection(env);
      if !ok || !env.statementOk {
        return None;
      }
      rows := Some(query(conn.value.view));
    }

    /** execute_insert_update_delete: False with no connection; otherwise
      * the statement runs in the open transaction (one is begun implicitly)
      * and commit decides whether it is committed or, on failure, rolled
      * back. */
    method ExecuteInsertUpdateDelete(s: Statement, commit: bool, env: Env) returns (ok: bool)
      modifies this
      requires Valid()
      ensures Valid()
      ensures databaseName == old(databaseName)
      ensures old(conn).None? && env.connect != Opened ==> !ok && file == old(file)
      ensures old(conn).None? && env.connect == OpenFails ==> conn.None?
      ensures old(conn).None? && env.connect == PragmaFails ==> conn == Some(Connection(false, file))
      ensures old(conn).Some? || env.connect == Opened ==>
        var c := if old(conn).Some? then old(conn).value else Connection(false, old(file));
        (conn.Some? && (conn.value, file, ok) == RunStatement(c, old(file), s, commit, env.statementOk))
    {
      var connected := EnsureConnection(env);
      if !connected {
        return false;
      }
      var c := conn.value;
      var outcome := if env.statementOk then Apply(c.view, s) else Err(CheckViolation);
      if outcome.Ok? {
        ApplyKeepsConsistent(c.view, s);
      }
      var r := RunStatement(c, file, s, commit, env.statementOk);
      conn := Some(r.0);
      file := r.1;
      ok := r.2;
    }

    /** begin_transaction: the result of ensure_connection is ignored, so
      * with no connection the BEGIN itself fails on None; BEGIN inside an
      * open transaction is refused by SQLite. */
    method BeginTransaction(env: Env) returns (r: Outcome<Raised>)
      modifies this
      requires Valid()
      ensures Valid()
      ensures databaseName == old(databaseName) && file == old(file)
      ensures old(conn).None? && env.connect == OpenFails ==> r == Fail(AttributeError) && conn.None?
      ensures old(conn).Some? && old(conn).value.inTransaction ==> r == Fail(OperationalError) && conn == old(conn)
      ensures r.Pass? <==> (old(conn).None? && env.connect != OpenFails) || (old(conn).Some? && !old(conn).value.inTransaction)
      ensures r.Pass? ==> conn == Some(Connection(true, file))
    {
      var _ := EnsureConnection(env);
      if conn.None? {
        return Fail(AttributeError);
      }
      if conn.value.inTransaction {
        return Fail(OperationalError);
      }
      conn := Some(Connection(true, conn.value.view));
      r := Pass;
    }

    /** commit_transaction: what the connection sees becomes the file (a
      * no-op without an open transaction). */
    method CommitTransaction() returns (r: Outcome<Raised>)
      modifies this
      requires Valid()
      ensures Valid()
      ensures databaseName == old(databaseName)
      ensures old(conn).None? ==> r == Fail(AttributeError) && conn.None? && file == old(file)
      ensures old(conn).Some? ==> r.Pass? && file == old(conn).value.view && conn == Some(Connection(false, file))
    {
      if conn.None? {
        return Fail(AttributeError);
      }
      file := conn.value.view;
      conn := Some(Connection(false, file));
      r := Pass;
    }

    /** rollback_transaction: the connection sees the file again. */
    method RollbackTransaction() returns (r: Outcome<Raised>)
      modifies this
      requires Valid()
      ensures Valid()
      ensures databaseName == old(databaseName) && file == old(file)
      ensures old(conn).None? ==> r == Fail(AttributeError) && conn.None?
      ensures old(conn).Some? ==> r.Pass? && conn == Some(Connection(false, file))
    {
      if conn.None? {
        return Fail(AttributeError);
      }
      conn := Some(Connection(false, file));
      r := Pass;
    }

    // ------------------------------------------------------- lookups
    // Each lookup takes row [0] of its SELECT when the query runs, and
    // gives None both when it does not and when no row matches.

    /** get_vehicle_id_by_plate: matched on the stripped argument, up to
      * ASCII case. */
    method GetVehicleIdByPlate(plate: string, env: Env) returns (id: Option<string>)
      modifies this
      requires Valid()
      ensures Valid() && databaseName == old(databaseName) && file == old(file)
      ensures old(conn).Some? ==> conn == old(conn)
      ensures QueryRuns(old(conn), env) ==> conn.Some? && id == Head(VehicleIdsByPlate(conn.value.view, Strip(plate)))
      ensures !QueryRuns(old(conn), env) ==> id.None?
    {
      var rows := ExecuteQuery(t => VehicleIdsByPlate(t, Strip(plate)), env);
      id := if rows.Some? then Head(rows.value) else None;
    }

    /** get_driver_id_by_license: matched exactly on the stripped argument. */
    method GetDriverIdByLicense(license: string, env: Env) returns (id: Option<string>)
      modifies this
      requires Valid()
      ensures Valid() && databaseName == old(databaseName) && file == old(file)
      ensures old(conn).Some? ==> conn == old(conn)
      ensures QueryRuns(old(conn), env) ==> conn.Some? && id == Head(DriverIdsByLicense(conn.value.view, Strip(license)))
      ensures !QueryRuns(old(conn), env) ==> id.None?
    {
      var rows := ExecuteQuery(t => DriverIdsByLicense(t, Strip(license)), env);
      id := if rows.Some? then Head(rows.value) else None;
    }

    /** get_conductor_id_by_license: the same over conductors. */
    method GetConductorIdByLicense(license: string, env: Env) returns (id: Option<string>)
      modifies this
      requires Valid()
      ensures Valid() && databaseName == old(databaseName) && file == old(file)
      ensures old(conn).Some? ==> conn == old(conn)
      ensures QueryRuns(old(conn), env) ==> conn.Some? && id == Head(ConductorIdsByLicense(conn.value.view, Strip(license)))
      ensures !QueryRuns(old(conn), env) ==> id.None?
    {
      var rows := ExecuteQuery(t => ConductorIdsByLicense(t, Strip(license)), env);
      id := if rows.Some? then Head(rows.value) else None;
    }

    /** get_user_id_by_username: the argument is used as given. */
    method GetUserIdByUsername(username: string, env: Env) returns (id: Option<nat>)
      modifies this
      requires Valid()
      ensures Valid() && databaseName == old(databaseName) && file == old(file)
      ensures old(conn).Some? ==> conn == old(conn)
      ensures QueryRuns(old(conn), env) ==> conn.Some? && id == Head(UserIdsByUsername(conn.value.view, username))
      ensures !QueryRuns(old(conn), env) ==> id.None?
    {
      var rows := ExecuteQuery(t => UserIdsByUsername(t, username), env);
      id := if rows.Some? then Head(rows.value) else None;
    }

    /** get_commuter_id_by_user_id: its column may itself be NULL, so None
      * also stands for a matching row whose commuter_id is NULL. */
    method GetCommuterIdByUserId(userId: int, env: Env) returns (id: Option<string>)
      modifies this
      requires Valid()
      ensures Valid() && databaseName == old(databaseName) && file == old(file)
      ensures old(conn).Some? ==> conn == old(conn)
      ensures QueryRuns(old(conn), env) ==> conn.Some? && id == Head(CommuterIdsOfUser(conn.value.view, userId)).GetOr(None)
      ensures !QueryRuns(old(conn), env) ==> id.None?
    {
      var rows := ExecuteQuery(t => CommuterIdsOfUser(t, userId), env);
      id := if rows.Some? then Head(rows.value).GetOr(None) else None;
    }

    /** get_driver_id_by_user_id. */
    method GetDriverIdByUserId(userId: int, env: Env) returns (id: Option<string>)
      modifies this
      requires Valid()
      ensures Valid() && databaseName == old(databaseName) && file == old(file)
      ensures old(conn).Some? ==> conn == old(conn)
      ensures QueryRuns(old(conn), env) ==> conn.Some? && id == Head(DriverIdsOfUser(conn.value.view, userId))
      ensures !QueryRuns(old(conn), env) ==> id.None?
    {
      var rows := ExecuteQuery(t => DriverIdsOfUser(t, userId), env);
      id := if rows.Some? then Head(rows.value) else None;
    }

    /** get_conductor_id_by_user_id. */
    method GetConductorIdByUserId(userId: int, env: Env) returns (id: Option<string>)
      modifies this
      requires Valid()
      ensures Valid() && databaseName == old(databaseName) && file == old(file)
      ensures old(conn).Some? ==> conn == old(conn)
      ensures QueryRuns(old(conn), env) ==> conn.Some? && id == Head(ConductorIdsOfUser(conn.value.view, userId))
      ensures !QueryRuns(old(conn), env) ==> id.None?
    {
      var rows := ExecuteQuery(t => ConductorIdsOfUser(t, userId), env);
      id := if rows.Some? then Head(rows.value) else None;
    }

    // ------------------------------------------------------ listings

    method GetRoutes(env: Env) returns (rows: Option<seq<RouteRow>>)
      modifies this
      requires Valid()
      ensures Valid() && databaseName == old(databaseName) && file == old(file)
      ensures old(conn).Some? ==> conn == old(conn)
      ensures rows.Some? <==> QueryRuns(old(conn), env)
      ensures rows.Some? ==> conn.Some? && rows.value == RouteRows(conn.value.view)
    {
      rows := ExecuteQuery(RouteRows, env);
    }

    method GetDriverFeedbacks(driverId: Option<string>, env: Env) returns (rows: Option<seq<Feedback>>)
      modifies this
      requires Valid()
      ensures Valid() && databaseName == old(databaseName) && file == old(file)
      ensures old(conn).Some? ==> conn == old(conn)
      ensures rows.Some? <==> QueryRuns(old(conn), env)
      ensures rows.Some? ==> conn.Some? && rows.value == StaffFeedbacks(conn.value.view, DriverColumn, driverId)
    {
      rows := ExecuteQuery(t => StaffFeedbacks(t, DriverColumn, driverId), env);
    }

    method GetConductorFeedbacks(conductorId: Option<string>, env: Env) returns (rows: Option<seq<Feedback>>)
      modifies this
      requires Valid()
      ensures Valid() && databaseName == old(databaseName) && file == old(file)
      ensures old(conn).Some? ==> conn == old(conn)
      ensures rows.Some? <==> QueryRuns(old(conn), env)
      ensures rows.Some? ==> conn.Some? && rows.value == StaffFeedbacks(conn.value.view, ConductorColumn, conductorId)
    {
      rows := ExecuteQuery(t => StaffFeedbacks(t, ConductorColumn, conductorId), env);
    }

    method GetCommuterFeedbacks(commuterId: Option<string>, env: Env) returns (rows: Option<seq<Feedback>>)
      modifies this
      requires Valid()
      ensures Valid() && databaseName == old(databaseName) && file == old(file)
      ensures old(conn).Some? ==> conn == old(conn)
      ensures rows.Some? <==> QueryRuns(old(conn), env)
      ensures rows.Some? ==> conn.Some? && rows.value == CommuterFeedbacks(conn.value.view, commuterId)
    {
      rows := ExecuteQuery(t => CommuterFeedbacks(t, commuterId), env);
    }

    method GetConductorTransactions(conductorId: Option<string>, env: Env)
      returns (rows: Option<seq<ConductorTransactionRow>>)
      modifies this
      requires Valid()
      ensures Valid() && databaseName == old(databaseName) && file == old(file)
      ensures old(conn).Some? ==> conn == old(conn)
      ensures rows.Some? <==> QueryRuns(old(conn), env)
      ensures rows.Some? ==> conn.Some? && rows.value == ConductorTransactions(conn.value.view, conductorId)
    {
      rows := ExecuteQuery(t => ConductorTransactions(t, conductorId), env);
    }

    method GetCommuterTransactions(commuterId: Option<string>, env: Env)
      returns (rows: Option<seq<CommuterTransactionRow>>)
      modifies this
      requires Valid()
      ensures Valid() && databaseName == old(databaseName) && file == old(file)
      ensures old(conn).Some? ==> conn == old(conn)
      ensures rows.Some? <==> QueryRuns(old(conn), env)
      ensures rows.Some? ==> conn.Some? && rows.value == CommuterTransactions(conn.value.view, commuterId)
    {
      rows := ExecuteQuery(t => CommuterTransactions(t, commuterId), env);
    }

    // ------------------------------------------- registration and login

    /** insert_commuter: works on self.conn directly (no ensure_connection).
      * The users row, then a commuters row for its new id, then commit.
      * Any IntegrityError becomes "Username already exists" and is raised
      * without a rollback, so the implicitly begun transaction stays open. */
    method InsertCommuter(username: string, password: string, firstName: string, lastName: string,
                          email: string, statementOk: bool) returns (r: Result<nat, Raised>)
      modifies this
      requires Valid()
      ensures Valid()
      ensures databaseName == old(databaseName)
      ensures old(conn).None? ==> r == Err(AttributeError) && conn.None? && file == old(file)
      ensures old(conn).Some? && !statementOk ==> r == Err(OperationalError) && file == old(file)
      ensures old(conn).Some? && statementOk ==>
        var v := old(conn).value.view;
        && (r.Err? <==> UsernameTaken(v.users, username) || EmailTaken(v.users, email))
        && (r.Err? ==> r == Err(ValueError("Username already exists")) && file == old(file)
                       && conn == Some(Connection(true, v)))
        && (r.Ok? ==> r.value == v.userSeq + 1
                      && file == v.(users := v.users + [User(r.value, username, firstName, lastName, Some(email),
                                                             password, Commuter)],
                                    commuters := v.commuters + [CommuterProfile(None, r.value, None, Some("None"), NoneV)],
                                    userSeq := r.value)
                      && conn == Some(Connection(false, file)))
    {
      if conn.None? {
        return Err(AttributeError);
      }
      var c := conn.value;
      if !statementOk {
        conn := Some(Connection(true, c.view));
        return Err(OperationalError);
      }
      var first := InsertUserRow(c.view, username, password, firstName, lastName, email, Commuter);
      if first.Err? {
        conn := Some(Connection(true, c.view));
        return Err(ValueError("Username already exists"));
      }
      InsertUserKeepsConsistent(c.view, username, password, firstName, lastName, email, Commuter);
      var userId := first.value.userSeq;
      assert User(userId, username, firstName, lastName, Some(email), password, Commuter) in first.value.users;
      var second := InsertCommuterRow(first.value, userId);
      InsertCommuterKeepsConsistent(first.value, userId);
      file := second.value;
      conn := Some(Connection(false, file));
      r := Ok(userId);
    }

    /** authenticate_user: works on self.conn directly; the record of the
      * first user with exactly these credentials, or None. */
    method AuthenticateUser(username: string, password: string, statementOk: bool)
      returns (r: Result<Option<AuthRecord>, Raised>)
      ensures old(conn).None? ==> r == Err(AttributeError)
      ensures old(conn).Some? && !statementOk ==> r == Err(OperationalError)
      ensures old(conn).Some? && statementOk ==> r == Ok(Authenticate(conn.value.view, username, password))
    {
      if conn.None? {
        return Err(AttributeError);
      }
      if !statementOk {
        return Err(OperationalError);
      }
      r := Ok(Authenticate(conn.value.view, username, password));
    }
  }

  /** The class attribute _instance and __new__: every construction after
    * the first hands back the same object, and __init__ then runs on it. */
  class ManagerRegistry {
    var instance: DatabaseManager?

    constructor()
      ensures instance == null
    {
      instance := null;
    }

    /** DatabaseManager(name); `disk` is the file's contents, used only when
      * the instance is first made. */
    method Construct(name: string, disk: Tables) returns (m: DatabaseManager)
      modifies this, instance
      requires Consistent(disk)
      requires instance != null ==> instance.Valid()
      ensures instance == m && m.Valid()
      ensures old(instance) != null ==> m == old(instance) && m.file == old(instance.file)
      ensures old(instance) == null ==> fresh(m) && m.file == disk
      ensures m.databaseName == name && m.conn.None?
    {
      if instance == null {
        m := new DatabaseManager(name, disk);
        instance := m;
      } else {
        m := instance;
        m.Init(name);
      }
    }
  }

  /** Two constructions give one object, and the second forgets the
    * connection the first one made. */
  method TwoConstructions(env: Env, disk: Tables) returns (same: bool, connectedAfter: bool)
    requires Consistent(disk) && env.connect == Opened
    ensures same && !connectedAfter
  {
    var registry := new ManagerRegistry();
    var a := registry.Construct(DefaultDatabaseName, disk);
    var _ := a.Connect(env);
    var b := registry.Construct(DefaultDatabaseName, disk);
    same := a == b;
    connectedAfter := a.conn.Some?;
  }
}
