/**
 * The relational schema that create_tables lays down: one record type per
 * table, the constraints SQLite enforces on them (UNIQUE, NOT NULL, CHECK,
 * and FOREIGN KEY once the connection enables it), the route label of
 * route_view, and the effect of running the DDL script itself.
 */
module Schema {
  import opened Wrappers

  // ---------------------------------------------------------------- values

  /** CHECK(user_type IN ('Admin', 'Commuter', 'Driver', 'Conductor')). */
  datatype UserType = Admin | Commuter | Driver | Conductor

  function UserTypeName(u: UserType): string {
    match u
    case Admin => "Admin"
    case Commuter => "Commuter"
    case Driver => "Driver"
    case Conductor => "Conductor"
  }

  /** The texts the user_type column admits, read back as the enum. */
  function ParseUserType(s: string): (r: Option<UserType>)
    ensures r.Some? ==> UserTypeName(r.value) == s
    ensures r.None? ==> forall u: UserType :: UserTypeName(u) != s
  {
    if s == "Admin" then Some(Admin)
    else if s == "Commuter" then Some(Commuter)
    else if s == "Driver" then Some(Driver)
    else if s == "Conductor" then Some(Conductor)
    else None
  }

  lemma UserTypeRoundTrip(u: UserType)
    ensures ParseUserType(UserTypeName(u)) == Some(u)
  {
  }

  /** A dynamically typed SQLite value, as a column without a strict type
    * can hold it (commuters.preferred_route). */
  datatype Value = NoneV | IntV(i: int) | RealV(x: real) | TextV(s: string)

  // --------------------------------------------------------------- records

  datatype User = User(userId: nat, username: string, firstName: string, lastName: string,
                       email: Option<string>, password: string, userType: UserType)

  datatype AdminProfile = AdminProfile(adminId: string, userId: Option<nat>, role: Option<string>)

  datatype DriverProfile = DriverProfile(driverId: string, userId: nat, licenseNo: Option<string>)

  /** commuter_id is a VARCHAR PRIMARY KEY, which SQLite lets be NULL. */
  datatype CommuterProfile = CommuterProfile(commuterId: Option<string>, userId: nat,
                                             contactNo: Option<string>, discountType: Option<string>,
                                             preferredRoute: Value)

  datatype ConductorProfile = ConductorProfile(conductorId: string, userId: nat, licenseNo: Option<string>)

  datatype Vehicle = Vehicle(vehicleId: string, plateNo: string)

  datatype Route = Route(routeId: nat, origin: string, destination: string, distance: real)

  datatype Fare = Fare(fareId: nat, routeId: Option<nat>, priceFare: real, discountFare: Option<real>)

  /** Timestamps are seconds; their order is that of SQLite's
    * 'YYYY-MM-DD HH:MM:SS' text. */
  datatype Transaction = Transaction(transactionId: string, commuterId: Option<string>,
                                     routeId: Option<nat>, vehicleId: Option<string>,
                                     conductorId: Option<string>, fareId: Option<nat>,
                                     totalFare: real, transactionDate: nat)

  datatype Feedback = Feedback(feedbackId: nat, commuterId: Option<string>, driverId: Option<string>,
                               conductorId: Option<string>, rating: Option<real>, comment: Option<string>)

  /** vehicle_assignment: its three references are NOT NULL. */
  datatype Assignment = Assignment(assignmentId: nat, vehicleId: string, driverId: string,
                                   conductorId: string, assignmentDate: nat)

  /** The whole database. The *Seq fields are sqlite_sequence, the largest
    * id an AUTOINCREMENT column has handed out. */
  datatype Tables = Tables(
    users: seq<User>, admins: seq<AdminProfile>, drivers: seq<DriverProfile>,
    commuters: seq<CommuterProfile>, conductors: seq<ConductorProfile>, vehicles: seq<Vehicle>,
    routes: seq<Route>, fares: seq<Fare>, transactions: seq<Transaction>,
    feedbacks: seq<Feedback>, assignments: seq<Assignment>,
    userSeq: nat, feedbackSeq: nat, assignmentSeq: nat)

  const EmptyTables := Tables([], [], [], [], [], [], [], [], [], [], [], 0, 0, 0)

  // ------------------------------------------------------------ constraints

  // users: user_id INTEGER PRIMARY KEY AUTOINCREMENT, username UNIQUE NOT NULL, email UNIQUE
  predicate UniqueUserIds(us: seq<User>) {
    forall i, j :: 0 <= i < j < |us| ==> us[i].userId != us[j].userId
  }
  predicate UserIdsIssued(us: seq<User>, userSeq: nat) {
    forall i :: 0 <= i < |us| ==> us[i].userId <= userSeq
  }
  predicate UniqueUsernames(us: seq<User>) {
    forall i, j :: 0 <= i < j < |us| ==> us[i].username != us[j].username
  }
  /** UNIQUE admits any number of NULLs. */
  predicate UniqueEmails(us: seq<User>) {
    forall i, j :: 0 <= i < j < |us| && us[i].email.Some? ==> us[i].email != us[j].email
  }

  // user_id UNIQUE on admins, drivers and conductors (not on commuters)
  predicate UniqueAdminUsers(ads: seq<AdminProfile>) {
    forall i, j :: 0 <= i < j < |ads| && ads[i].userId.Some? ==> ads[i].userId != ads[j].userId
  }
  predicate UniqueDriverUsers(ds: seq<DriverProfile>) {
    forall i, j :: 0 <= i < j < |ds| ==> ds[i].userId != ds[j].userId
  }
  predicate UniqueConductorUsers(ks: seq<ConductorProfile>) {
    forall i, j :: 0 <= i < j < |ks| ==> ks[i].userId != ks[j].userId
  }

  // the VARCHAR primary keys and vehicles.plate_no UNIQUE NOT NULL
  predicate UniqueAdminIds(ads: seq<AdminProfile>) {
    forall i, j :: 0 <= i < j < |ads| ==> ads[i].adminId != ads[j].adminId
  }
  predicate UniqueDriverIds(ds: seq<DriverProfile>) {
    forall i, j :: 0 <= i < j < |ds| ==> ds[i].driverId != ds[j].driverId
  }
  predicate UniqueConductorIds(ks: seq<ConductorProfile>) {
    forall i, j :: 0 <= i < j < |ks| ==> ks[i].conductorId != ks[j].conductorId
  }
  predicate UniqueCommuterIds(cs: seq<CommuterProfile>) {
    forall i, j :: 0 <= i < j < |cs| && cs[i].commuterId.Some? ==> cs[i].commuterId != cs[j].commuterId
  }
  predicate UniqueVehicleIds(vs: seq<Vehicle>) {
    forall i, j :: 0 <= i < j < |vs| ==> vs[i].vehicleId != vs[j].vehicleId
  }
  predicate UniquePlates(vs: seq<Vehicle>) {
    forall i, j :: 0 <= i < j < |vs| ==> vs[i].plateNo != vs[j].plateNo
  }
  predicate UniqueTransactionIds(ts: seq<Transaction>) {
    forall i, j :: 0 <= i < j < |ts| ==> ts[i].transactionId != ts[j].transactionId
  }

  // the INTEGER primary keys
  predicate UniqueRouteIds(rs: seq<Route>) {
    forall i, j :: 0 <= i < j < |rs| ==> rs[i].routeId != rs[j].routeId
  }
  predicate UniqueFareIds(fs: seq<Fare>) {
    forall i, j :: 0 <= i < j < |fs| ==> fs[i].fareId != fs[j].fareId
  }
  predicate UniqueFeedbackIds(fs: seq<Feedback>) {
    forall i, j :: 0 <= i < j < |fs| ==> fs[i].feedbackId != fs[j].feedbackId
  }
  predicate FeedbackIdsIssued(fs: seq<Feedback>, feedbackSeq: nat) {
    forall i :: 0 <= i < |fs| ==> fs[i].feedbackId <= feedbackSeq
  }
  predicate UniqueAssignmentIds(xs: seq<Assignment>) {
    forall i, j :: 0 <= i < j < |xs| ==> xs[i].assignmentId != xs[j].assignmentId
  }
  predicate AssignmentIdsIssued(xs: seq<Assignment>, assignmentSeq: nat) {
    forall i :: 0 <= i < |xs| ==> xs[i].assignmentId <= assignmentSeq
  }

  /** CHECK(rating BETWEEN 0.0 AND 5.0); a NULL rating passes a CHECK. */
  predicate RatingsInRange(fs: seq<Feedback>) {
    forall i :: 0 <= i < |fs| && fs[i].rating.Some? ==> 0.0 <= fs[i].rating.value <= 5.0
  }

  // FOREIGN KEY clauses (enforced on a connection with PRAGMA foreign_keys = ON)
  predicate HasUser(us: seq<User>, id: int) {
    exists u :: u in us && u.userId == id
  }
  predicate HasRoute(rs: seq<Route>, id: int) {
    exists r :: r in rs && r.routeId == id
  }
  predicate HasCommuter(cs: seq<CommuterProfile>, id: string) {
    exists c :: c in cs && c.commuterId == Some(id)
  }
  predicate HasDriver(ds: seq<DriverProfile>, id: string) {
    exists d :: d in ds && d.driverId == id
  }
  predicate HasConductor(ks: seq<ConductorProfile>, id: string) {
    exists k :: k in ks && k.conductorId == id
  }
  predicate HasVehicle(vs: seq<Vehicle>, id: string) {
    exists v :: v in vs && v.vehicleId == id
  }
  predicate HasFare(fs: seq<Fare>, id: int) {
    exists f :: f in fs && f.fareId == id
  }

  predicate ProfilesHaveUsers(us: seq<User>, ads: seq<AdminProfile>, ds: seq<DriverProfile>,
                              cs: seq<CommuterProfile>, ks: seq<ConductorProfile>) {
    && (forall i :: 0 <= i < |ads| && ads[i].userId.Some? ==> HasUser(us, ads[i].userId.value))
    && (forall i :: 0 <= i < |ds| ==> HasUser(us, ds[i].userId))
    && (forall i :: 0 <= i < |cs| ==> HasUser(us, cs[i].userId))
    && (forall i :: 0 <= i < |ks| ==> HasUser(us, ks[i].userId))
  }

  /** A preferred_route is NULL or an existing route id; any other value
    * fails the foreign key. */
  predicate PreferredRouteOk(v: Value, rs: seq<Route>) {
    v.NoneV? || (v.IntV? && HasRoute(rs, v.i))
  }

  predicate PreferredRoutesExist(cs: seq<CommuterProfile>, rs: seq<Route>) {
    forall i :: 0 <= i < |cs| ==> PreferredRouteOk(cs[i].preferredRoute, rs)
  }

  predicate FaresHaveRoutes(fs: seq<Fare>, rs: seq<Route>) {
    forall i :: 0 <= i < |fs| && fs[i].routeId.Some? ==> HasRoute(rs, fs[i].routeId.value)
  }

  predicate FeedbackRefsOk(f: Feedback, cs: seq<CommuterProfile>, ds: seq<DriverProfile>, ks: seq<ConductorProfile>) {
    && (f.commuterId.Some? ==> HasCommuter(cs, f.commuterId.value))
    && (f.driverId.Some? ==> HasDriver(ds, f.driverId.value))
    && (f.conductorId.Some? ==> HasConductor(ks, f.conductorId.value))
  }

  predicate FeedbacksHaveRefs(fs: seq<Feedback>, cs: seq<CommuterProfile>, ds: seq<DriverProfile>,
                              ks: seq<ConductorProfile>) {
    forall i :: 0 <= i < |fs| ==> FeedbackRefsOk(fs[i], cs, ds, ks)
  }

  predicate AssignmentRefsOk(a: Assignment, vs: seq<Vehicle>, ds: seq<DriverProfile>, ks: seq<ConductorProfile>) {
    HasVehicle(vs, a.vehicleId) && HasDriver(ds, a.driverId) && HasConductor(ks, a.conductorId)
  }

  predicate AssignmentsHaveRefs(xs: seq<Assignment>, vs: seq<Vehicle>, ds: seq<DriverProfile>,
                                ks: seq<ConductorProfile>) {
    forall i :: 0 <= i < |xs| ==> AssignmentRefsOk(xs[i], vs, ds, ks)
  }

  predicate TransactionRefsOk(x: Transaction, cs: seq<CommuterProfile>, rs: seq<Route>, vs: seq<Vehicle>,
                              ks: seq<ConductorProfile>, fs: seq<Fare>) {
    && (x.commuterId.Some? ==> HasCommuter(cs, x.commuterId.value))
    && (x.routeId.Some? ==> HasRoute(rs, x.routeId.value))
    && (x.vehicleId.Some? ==> HasVehicle(vs, x.vehicleId.value))
    && (x.conductorId.Some? ==> HasConductor(ks, x.conductorId.value))
    && (x.fareId.Some? ==> HasFare(fs, x.fareId.value))
  }

  predicate TransactionsHaveRefs(xs: seq<Transaction>, cs: seq<CommuterProfile>, rs: seq<Route>,
                                 vs: seq<Vehicle>, ks: seq<ConductorProfile>, fs: seq<Fare>) {
    forall i :: 0 <= i < |xs| ==> TransactionRefsOk(xs[i], cs, rs, vs, ks, fs)
  }

  /** Every constraint of the schema, under PRAGMA foreign_keys = ON. */
  predicate Consistent(t: Tables) {
    && UniqueUserIds(t.users) && UserIdsIssued(t.users, t.userSeq)
    && UniqueUsernames(t.users) && UniqueEmails(t.users)
    && UniqueAdminUsers(t.admins) && UniqueDriverUsers(t.drivers) && UniqueConductorUsers(t.conductors)
    && UniqueAdminIds(t.admins) && UniqueDriverIds(t.drivers) && UniqueConductorIds(t.conductors)
    && UniqueCommuterIds(t.commuters) && UniqueVehicleIds(t.vehicles) && UniquePlates(t.vehicles)
    && UniqueTransactionIds(t.transactions)
    && UniqueRouteIds(t.routes) && UniqueFareIds(t.fares)
    && UniqueFeedbackIds(t.feedbacks) && FeedbackIdsIssued(t.feedbacks, t.feedbackSeq)
    && UniqueAssignmentIds(t.assignments) && AssignmentIdsIssued(t.assignments, t.assignmentSeq)
    && RatingsInRange(t.feedbacks)
    && ProfilesHaveUsers(t.users, t.admins, t.drivers, t.commuters, t.conductors)
    && PreferredRoutesExist(t.commuters, t.routes)
    && FaresHaveRoutes(t.fares, t.routes)
    && FeedbacksHaveRefs(t.feedbacks, t.commuters, t.drivers, t.conductors)
    && AssignmentsHaveRefs(t.assignments, t.vehicles, t.drivers, t.conductors)
    && TransactionsHaveRefs(t.transactions, t.commuters, t.routes, t.vehicles, t.conductors, t.fares)
  }

  lemma EmptyConsistent()
    ensures Consistent(EmptyTables)
  {
  }

  /** A user has at most one driver row, and so on; a commuters row carries
    * no such constraint, so one user may own several. */
  lemma CommuterUserIdNotUnique()
    ensures var u := User(1, "ana", "Ana", "Cruz", None, "pw", Commuter);
            var c := CommuterProfile(None, 1, None, Some("None"), NoneV);
            Consistent(EmptyTables.(users := [u], commuters := [c, c], userSeq := 1))
  {
    var u := User(1, "ana", "Ana", "Cruz", None, "pw", Commuter);
    assert u in [u];
  }

  // -------------------------------------------------------------- route_view

  /** route_view's label: origin || ' to ' || destination. */
  function RouteLabel(origin: string, destination: string): (r: string)
    ensures |r| == |origin| + 4 + |destination|
    ensures r[..|origin|] == origin && r[|origin| + 4..] == destination
    ensures r[|origin|..|origin| + 4] == " to "
  {
    origin + " to " + destination
  }

  predicate SepAt(s: string, k: nat) {
    k + 4 <= |s| && s[k..k + 4] == " to "
  }

  /** The first position of " to " in s at or after `from`. */
  function FindSep(s: string, from: nat): (r: Option<nat>)
    decreases |s| - from
    ensures r.Some? ==> (from <= r.value && SepAt(s, r.value)
      && forall k :: from <= k < r.value ==> !SepAt(s, k))
    ensures r.None? ==> forall k :: from <= k ==> !SepAt(s, k)
  {
    if from + 4 > |s| then None
    else if SepAt(s, from) then Some(from)
    else FindSep(s, from + 1)
  }

  /** Reads a label back as (origin, destination), splitting at its first " to ". */
  function SplitRouteLabel(line: string): Option<(string, string)> {
    match FindSep(line, 0)
    case Some(k) => Some((line[..k], line[k + 4..]))
    case None => None
  }

  /** The label gives back its origin and destination whenever the origin
    * holds no " to " of its own, even one that runs into the separator. */
  lemma SplitRouteLabelInverts(origin: string, destination: string)
    requires forall k :: 0 <= k < |origin| ==> !SepAt(origin + " to", k)
    ensures SplitRouteLabel(RouteLabel(origin, destination)) == Some((origin, destination))
  {
    var l := RouteLabel(origin, destination);
    forall k | 0 <= k < |origin| ensures !SepAt(l, k) {
      var p := l[..|origin| + 3];
      assert p == origin + " to";
      assert !SepAt(p, k);
      assert k + 4 <= |p| && p[k..k + 4] == l[k..k + 4];
    }
    assert SepAt(l, |origin|);
  }

  /** Without that condition the label is ambiguous. */
  lemma RouteLabelAmbiguous()
    ensures RouteLabel("A to B", "C") == RouteLabel("A", "B to C")
  {
  }

  // ------------------------------------------------------- the DDL script

  datatype SchemaObject =
    | UsersTable | AdminsTable | DriversTable | CommutersTable | ConductorsTable | VehiclesTable
    | RoutesTable | FaresTable | TransactionsTable | FeedbacksTable | AssignmentTable | RouteView

  datatype Ddl = Create(target: SchemaObject, ifNotExists: bool)

  /** CREATE ... IF NOT EXISTS for each object in turn. */
  function Guarded(objs: seq<SchemaObject>): (r: seq<Ddl>)
    ensures |r| == |objs| && forall i :: 0 <= i < |objs| ==> r[i] == Create(objs[i], true)
  {
    if objs == [] then [] else [Create(objs[0], true)] + Guarded(objs[1..])
  }

  /** The ten tables create_tables lays down before vehicle_assignment. */
  const TableOrder: seq<SchemaObject> := [
    UsersTable, AdminsTable, DriversTable, CommutersTable, ConductorsTable, VehiclesTable,
    RoutesTable, FaresTable, TransactionsTable, FeedbacksTable]

  const EarlierTables: set<SchemaObject> := set o | o in TableOrder

  /** create_tables: every CREATE but the one for vehicle_assignment says IF NOT EXISTS. */
  const CreateTablesScript: seq<Ddl> :=
    Guarded(TableOrder) + AssignmentAndView

  const AssignmentAndView: seq<Ddl> := [Create(AssignmentTable, false), Create(RouteView, true)]

  /** The same script with IF NOT EXISTS on vehicle_assignment too. */
  const GuardedScript: seq<Ddl> := Guarded(TableOrder + [AssignmentTable, RouteView])

  const AllObjects: set<SchemaObject> := set o | o in TableOrder + [AssignmentTable, RouteView]

  lemma AllObjectsComplete(o: SchemaObject)
    ensures o in AllObjects
  {
    var all := TableOrder + [AssignmentTable, RouteView];
    match o
    case UsersTable => assert all[0] == o;
    case AdminsTable => assert all[1] == o;
    case DriversTable => assert all[2] == o;
    case CommutersTable => assert all[3] == o;
    case ConductorsTable => assert all[4] == o;
    case VehiclesTable => assert all[5] == o;
    case RoutesTable => assert all[6] == o;
    case FaresTable => assert all[7] == o;
    case TransactionsTable => assert all[8] == o;
    case FeedbacksTable => assert all[9] == o;
    case AssignmentTable => assert all[10] == o;
    case RouteView => assert all[11] == o;
  }

  lemma AllObjectsSplit()
    ensures AllObjects == EarlierTables + {AssignmentTable, RouteView}
  {
    forall o ensures o in AllObjects <==> o in EarlierTables + {AssignmentTable, RouteView} {
      assert o in TableOrder + [AssignmentTable, RouteView] <==> o in TableOrder || o in [AssignmentTable, RouteView];
    }
  }

  /** The objects a script names. */
  function Targets(script: seq<Ddl>): set<SchemaObject> {
    if script == [] then {} else {script[0].target} + Targets(script[1..])
  }

  /** The catalog after the script, or the statement that raised and the
    * catalog as the earlier statements left it (DDL runs outside any
    * transaction, so what ran before the failure stays). */
  datatype DdlOutcome = Done(catalog: set<SchemaObject>) | Failed(at: SchemaObject, partial: set<SchemaObject>)

  function RunDdl(script: seq<Ddl>, catalog: set<SchemaObject>): (r: DdlOutcome)
    ensures r.Done? ==> r.catalog == catalog + Targets(script)
    ensures (forall i :: 0 <= i < |script| ==> script[i].ifNotExists) ==> r.Done?
    ensures r.Failed? ==> (catalog <= r.partial && r.at in r.partial
      && exists i :: 0 <= i < |script| && script[i] == Create(r.at, false))
  {
    if script == [] then Done(catalog)
    else if script[0].target in catalog && !script[0].ifNotExists then Failed(script[0].target, catalog)
    else
      var r := RunDdl(script[1..], catalog + {script[0].target});
      assert r.Failed? ==> exists i :: 0 <= i < |script[1..]| && script[1..][i] == Create(r.at, false);
      assert r.Failed? ==> exists i :: 0 <= i < |script| && script[i] == Create(r.at, false);
      r
  }

  /** Running two scripts one after the other is running their concatenation. */
  lemma {:induction false} RunDdlAppend(a: seq<Ddl>, b: seq<Ddl>, catalog: set<SchemaObject>)
    ensures RunDdl(a + b, catalog) == match RunDdl(a, catalog)
                                      case Done(c) => RunDdl(b, c)
                                      case Failed(o, c) => Failed(o, c)
  {
    if a == [] {
      assert a + b == b;
    } else {
      assert (a + b)[0] == a[0] && (a + b)[1..] == a[1..] + b;
      if !(a[0].target in catalog && !a[0].ifNotExists) {
        RunDdlAppend(a[1..], b, catalog + {a[0].target});
      }
    }
  }

  lemma {:induction false} TargetsGuarded(objs: seq<SchemaObject>)
    ensures Targets(Guarded(objs)) == set o | o in objs
  {
    if objs != [] {
      TargetsGuarded(objs[1..]);
      assert Guarded(objs)[1..] == Guarded(objs[1..]);
      assert forall o :: o in objs <==> o == objs[0] || o in objs[1..];
    }
  }

  function CreateTables(catalog: set<SchemaObject>): DdlOutcome {
    RunDdl(CreateTablesScript, catalog)
  }

  function CreateTablesGuarded(catalog: set<SchemaObject>): DdlOutcome {
    RunDdl(GuardedScript, catalog)
  }

  /** What setup_database prints: success, or the error it caught. */
  datatype SetupReport = TablesCreated | DatabaseError(failedAt: SchemaObject)

  function SetupDatabase(catalog: set<SchemaObject>): (set<SchemaObject>, SetupReport) {
    match CreateTables(catalog)
    case Done(c) => (c, TablesCreated)
    case Failed(o, c) => (c, DatabaseError(o))
  }

  lemma RunGuarded(objs: seq<SchemaObject>, catalog: set<SchemaObject>)
    ensures RunDdl(Guarded(objs), catalog) == Done(catalog + set o | o in objs)
  {
    TargetsGuarded(objs);
  }

  lemma RunTableOrder(catalog: set<SchemaObject>)
    ensures CreateTables(catalog) == RunDdl(AssignmentAndView, catalog + EarlierTables)
  {
    RunGuarded(TableOrder, catalog);
    RunDdlAppend(Guarded(TableOrder), AssignmentAndView, catalog);
  }

  lemma RunAssignmentAndView(c: set<SchemaObject>)
    requires AssignmentTable !in c
    ensures RunDdl(AssignmentAndView, c) == Done(c + {AssignmentTable, RouteView})
  {
    assert AssignmentAndView[1..] == [Create(RouteView, true)];
  }

  lemma AssignmentNotEarlier()
    ensures AssignmentTable !in EarlierTables
  {
    assert forall k :: 0 <= k < |TableOrder| ==> TableOrder[k] != AssignmentTable;
  }

  lemma CreateTablesFresh(catalog: set<SchemaObject>)
    requires AssignmentTable !in catalog
    ensures CreateTables(catalog) == Done(catalog + EarlierTables + {AssignmentTable, RouteView})
  {
    RunTableOrder(catalog);
    AssignmentNotEarlier();
    RunAssignmentAndView(catalog + EarlierTables);
  }

  lemma AllObjectsUnion(catalog: set<SchemaObject>)
    ensures catalog + EarlierTables + {AssignmentTable, RouteView} == catalog + AllObjects
  {
    AllObjectsSplit();
  }

  /** While vehicle_assignment does not exist (on a fresh file, say) the
    * script succeeds and leaves every table and the view in place. */
  lemma SetupCreatesAll(catalog: set<SchemaObject>)
    requires AssignmentTable !in catalog
    ensures SetupDatabase(catalog) == (catalog + AllObjects, TablesCreated)
  {
    CreateTablesFresh(catalog);
    AllObjectsUnion(catalog);
  }

  /** Once vehicle_assignment exists, every later run stops at it with an
    * error that setup_database reports: the ten tables before it are there
    * afterwards, and route_view is created only if it already was. */
  lemma RerunFailsAtAssignment(catalog: set<SchemaObject>)
    requires AssignmentTable in catalog
    ensures SetupDatabase(catalog) == (catalog + EarlierTables, DatabaseError(AssignmentTable))
  {
    RunTableOrder(catalog);
  }

  /** With IF NOT EXISTS on every statement the script never fails and
    * running it twice is the same as running it once. */
  lemma GuardedIdempotent(catalog: set<SchemaObject>)
    ensures CreateTablesGuarded(catalog) == Done(catalog + AllObjects)
    ensures CreateTablesGuarded(catalog + AllObjects) == Done(catalog + AllObjects)
  {
    RunGuarded(TableOrder + [AssignmentTable, RouteView], catalog);
    RunGuarded(TableOrder + [AssignmentTable, RouteView], catalog + AllObjects);
  }
}
