/**
 * The SELECT statements of DatabaseManager, as functions of the tables:
 * the lookups behind the get_*_id_by_* helpers, the role listings with
 * their ORDER BY, and the joined row authenticate_user fetches.
 */
module Queries {
  import opened Wrappers
  import opened Schema
  import opened Text
  import opened Ordering

  // ----------------------------------------------------------------- routes

  datatype RouteRow = RouteRow(routeId: nat, origin: string, destination: string)

  /** get_routes: SELECT route_id, origin, destination FROM routes. */
  function RouteRows(t: Tables): (r: seq<RouteRow>)
    ensures |r| == |t.routes|
    ensures forall i :: 0 <= i < |r| ==> r[i].routeId == t.routes[i].routeId
    ensures forall i :: 0 <= i < |r| ==>
      r[i].origin == t.routes[i].origin && r[i].destination == t.routes[i].destination
  {
    seq(|t.routes|, i requires 0 <= i < |t.routes| =>
      RouteRow(t.routes[i].routeId, t.routes[i].origin, t.routes[i].destination))
  }

  // ---------------------------------------------------------------- lookups

  /** SELECT vehicle_id FROM vehicles WHERE LOWER(plate_no) = LOWER(?). */
  function VehicleIdsByPlate(t: Tables, plate: string): (r: seq<string>)
    ensures forall id :: id in r <==>
      exists v :: v in t.vehicles && v.vehicleId == id && SqlLower(v.plateNo) == SqlLower(plate)
  {
    PlateHits(t, SqlLower(plate))
  }

  function PlateHits(t: Tables, lowered: string): seq<string> {
    Project(Filter(t.vehicles, (v: Vehicle) => SqlLower(v.plateNo) == lowered), (v: Vehicle) => v.vehicleId)
  }

  /** The plate match ignores ASCII case: a plate typed in lower case finds
    * the same vehicles as the plate itself. */
  lemma PlateLookupIgnoresCase(t: Tables, plate: string)
    ensures VehicleIdsByPlate(t, SqlLower(plate)) == VehicleIdsByPlate(t, plate)
  {
    SqlLowerIdempotent(plate);
  }

  /** SELECT driver_id FROM drivers WHERE license_no = ? (exact match). */
  function DriverIdsByLicense(t: Tables, license: string): (r: seq<string>)
    ensures forall id :: id in r <==> exists d :: d in t.drivers && d.driverId == id && d.licenseNo == Some(license)
  {
    Project(Filter(t.drivers, (d: DriverProfile) => d.licenseNo == Some(license)), (d: DriverProfile) => d.driverId)
  }

  /** SELECT conductor_id FROM conductors WHERE license_no = ? (exact match). */
  function ConductorIdsByLicense(t: Tables, license: string): (r: seq<string>)
    ensures forall id :: id in r <==> exists k :: k in t.conductors && k.conductorId == id && k.licenseNo == Some(license)
  {
    Project(Filter(t.conductors, (k: ConductorProfile) => k.licenseNo == Some(license)),
            (k: ConductorProfile) => k.conductorId)
  }

  /** get_user_by_username: SELECT * FROM users WHERE username = ?. */
  function UsersByUsername(t: Tables, username: string): (r: seq<User>)
    ensures forall u :: u in r <==> u in t.users && u.username == username
  {
    Filter(t.users, (u: User) => u.username == username)
  }

  /** SELECT user_id FROM users WHERE username = ?. */
  function UserIdsByUsername(t: Tables, username: string): (r: seq<nat>)
    ensures forall id :: id in r <==> exists u :: u in t.users && u.userId == id && u.username == username
  {
    Project(UsersByUsername(t, username), (u: User) => u.userId)
  }

  /** With usernames unique, a username finds at most one user. */
  lemma UsernameFindsAtMostOne(t: Tables, username: string)
    requires UniqueUsernames(t.users)
    ensures |UsersByUsername(t, username)| <= 1
  {
    FilterAtMostOne(t.users, (u: User) => u.username == username);
  }

  /** user_id is UNIQUE in drivers and in conductors: a user has at most
    * one driver id and at most one conductor id. */
  lemma RoleIdsAtMostOne(t: Tables, userId: int)
    requires UniqueDriverUsers(t.drivers) && UniqueConductorUsers(t.conductors)
    ensures |DriverIdsOfUser(t, userId)| <= 1 && |ConductorIdsOfUser(t, userId)| <= 1
  {
    FilterAtMostOne(t.drivers, DriverOfUser(userId));
    FilterAtMostOne(t.conductors, ConductorOfUser(userId));
  }

  /** WHERE user_id = ? on each of the role tables. */
  function CommuterOfUser(userId: int): CommuterProfile -> bool {
    (p: CommuterProfile) => p.userId == userId
  }
  function DriverOfUser(userId: int): DriverProfile -> bool {
    (d: DriverProfile) => d.userId == userId
  }
  function ConductorOfUser(userId: int): ConductorProfile -> bool {
    (k: ConductorProfile) => k.userId == userId
  }
  function AdminOfUser(userId: int): AdminProfile -> bool {
    (a: AdminProfile) => a.userId == Some(userId)
  }

  /** SELECT commuter_id FROM commuters WHERE user_id = ? (a NULL id is a
    * row too). */
  function CommuterIdsOfUser(t: Tables, userId: int): (r: seq<Option<string>>)
    ensures forall c :: c in r <==> exists p :: p in t.commuters && p.userId == userId && p.commuterId == c
  {
    Project(Filter(t.commuters, CommuterOfUser(userId)), (p: CommuterProfile) => p.commuterId)
  }

  /** SELECT driver_id FROM drivers WHERE user_id = ?. */
  function DriverIdsOfUser(t: Tables, userId: int): (r: seq<string>)
    ensures forall id :: id in r <==> exists d :: d in t.drivers && d.userId == userId && d.driverId == id
  {
    Project(Filter(t.drivers, DriverOfUser(userId)), (d: DriverProfile) => d.driverId)
  }

  /** SELECT conductor_id FROM conductors WHERE user_id = ?. */
  function ConductorIdsOfUser(t: Tables, userId: int): (r: seq<string>)
    ensures forall id :: id in r <==> exists k :: k in t.conductors && k.userId == userId && k.conductorId == id
  {
    Project(Filter(t.conductors, ConductorOfUser(userId)), (k: ConductorProfile) => k.conductorId)
  }

  // --------------------------------------------------------------- listings

  function FeedbackId(f: Feedback): int { f.feedbackId }
  function NegFeedbackId(f: Feedback): int { -(f.feedbackId as int) }

  /** WHERE column = ?: a NULL parameter matches no row. */
  predicate Matches(column: Option<string>, param: Option<string>) {
    param.Some? && column == param
  }

  /** The two staff columns of feedbacks a listing filters on. */
  datatype StaffColumn = DriverColumn | ConductorColumn

  function StaffId(f: Feedback, column: StaffColumn): Option<string> {
    match column
    case DriverColumn => f.driverId
    case ConductorColumn => f.conductorId
  }

  /** get_driver_feedbacks and get_conductor_feedbacks: the feedback naming
    * one driver, or one conductor, ORDER BY feedback_id. */
  function StaffFeedbacks(t: Tables, column: StaffColumn, id: Option<string>): (r: seq<Feedback>)
    ensures SortedBy(r, FeedbackId)
    ensures forall f :: multiset(r)[f] == if Matches(StaffId(f, column), id) then multiset(t.feedbacks)[f] else 0
  {
    SortBy(Filter(t.feedbacks, (f: Feedback) => Matches(StaffId(f, column), id)), FeedbackId)
  }

  /** get_commuter_feedbacks: the commuter's feedback, ORDER BY feedback_id DESC. */
  function CommuterFeedbacks(t: Tables, commuterId: Option<string>): (r: seq<Feedback>)
    ensures SortedBy(r, NegFeedbackId)
    ensures forall f :: multiset(r)[f] == if Matches(f.commuterId, commuterId) then multiset(t.feedbacks)[f] else 0
  {
    SortBy(Filter(t.feedbacks, (f: Feedback) => Matches(f.commuterId, commuterId)), NegFeedbackId)
  }

  /** Feedback ids are a primary key, so the ascending listing is the only
    * ordering of a driver's or a conductor's feedback by id. */
  lemma StaffFeedbacksDetermined(t: Tables, column: StaffColumn, id: Option<string>, xs: seq<Feedback>)
    requires UniqueFeedbackIds(t.feedbacks)
    requires SortedBy(xs, FeedbackId)
    requires multiset(xs) == multiset(Filter(t.feedbacks, (f: Feedback) => Matches(StaffId(f, column), id)))
    ensures xs == StaffFeedbacks(t, column, id)
  {
    var p := (f: Feedback) => Matches(StaffId(f, column), id);
    assert DistinctKeys(t.feedbacks, FeedbackId);
    FilterKeepsDistinct(t.feedbacks, p, FeedbackId);
    DistinctKeysOfPermutation(Filter(t.feedbacks, p), StaffFeedbacks(t, column, id), FeedbackId);
    SortedByUniqueKey(StaffFeedbacks(t, column, id), xs, FeedbackId);
  }

  /** ... and the descending listing the only ordering of the commuter's
    * feedback newest id first. */
  lemma CommuterFeedbacksDetermined(t: Tables, commuterId: Option<string>, xs: seq<Feedback>)
    requires UniqueFeedbackIds(t.feedbacks)
    requires SortedBy(xs, NegFeedbackId)
    requires multiset(xs) == multiset(Filter(t.feedbacks, (f: Feedback) => Matches(f.commuterId, commuterId)))
    ensures xs == CommuterFeedbacks(t, commuterId)
  {
    var p := (f: Feedback) => Matches(f.commuterId, commuterId);
    assert DistinctKeys(t.feedbacks, NegFeedbackId);
    FilterKeepsDistinct(t.feedbacks, p, NegFeedbackId);
    DistinctKeysOfPermutation(Filter(t.feedbacks, p), CommuterFeedbacks(t, commuterId), NegFeedbackId);
    SortedByUniqueKey(CommuterFeedbacks(t, commuterId), xs, NegFeedbackId);
  }

  /** A commuter registered through insert_commuter has a NULL commuter_id,
    * and `commuter_id = NULL` selects nothing: such a commuter never sees
    * any feedback, not even their own. */
  lemma NullCommuterSeesNoFeedback(t: Tables)
    ensures CommuterFeedbacks(t, None) == []
  {
    var r := CommuterFeedbacks(t, None);
    assert multiset(r) == multiset{};
  }

  // ----------------------------------------------------------- transactions

  /** LEFT JOIN vehicles v ON t.vehicle_id = v.vehicle_id: the plate, or NULL. */
  function PlateOf(vs: seq<Vehicle>, vehicleId: Option<string>): (r: Option<string>)
    ensures r.Some? ==> exists v :: v in vs && Some(v.vehicleId) == vehicleId && v.plateNo == r.value
    ensures r.None? ==> forall v :: v in vs ==> Some(v.vehicleId) != vehicleId
  {
    match First(vs, (v: Vehicle) => Some(v.vehicleId) == vehicleId)
    case Some(v) => Some(v.plateNo)
    case None => None
  }

  datatype ConductorTransactionRow = ConductorTransactionRow(
    transactionId: string, commuterId: Option<string>, route: Option<nat>, vehiclePlate: Option<string>,
    totalFare: real, date: nat)

  function ConductorRow(x: Transaction, vs: seq<Vehicle>): ConductorTransactionRow {
    ConductorTransactionRow(x.transactionId, x.commuterId, x.routeId, PlateOf(vs, x.vehicleId),
                            x.totalFare, x.transactionDate)
  }

  function NegDate(r: ConductorTransactionRow): int { -(r.date as int) }

  /** get_conductor_transactions: the conductor's transactions with their
    * vehicle's plate, ORDER BY transaction_date DESC. */
  function ConductorTransactions(t: Tables, conductorId: Option<string>): (r: seq<ConductorTransactionRow>)
    ensures SortedBy(r, NegDate)
    ensures forall row :: row in r <==>
      exists x :: x in t.transactions && Matches(x.conductorId, conductorId) && row == ConductorRow(x, t.vehicles)
    ensures |r| == |Filter(t.transactions, (x: Transaction) => Matches(x.conductorId, conductorId))|
  {
    var hits := Filter(t.transactions, (x: Transaction) => Matches(x.conductorId, conductorId));
    var rows := Project(hits, (x: Transaction) => ConductorRow(x, t.vehicles));
    var r := SortBy(rows, NegDate);
    assert multiset(r) == multiset(rows);
    assert forall row :: row in r <==> row in rows by {
      forall row ensures row in r <==> row in rows {
        assert row in r <==> row in multiset(r);
        assert row in rows <==> row in multiset(rows);
      }
    }
    assert |r| == |rows| by {
      assert |multiset(r)| == |r| && |multiset(rows)| == |rows|;
    }
    r
  }

  datatype CommuterTransactionRow = CommuterTransactionRow(
    transaction: Transaction, origin: Option<string>, destination: Option<string>,
    vehiclePlate: Option<string>, conductorId: Option<string>)

  function RouteOf(rs: seq<Route>, routeId: Option<nat>): Option<Route> {
    First(rs, (r: Route) => Some(r.routeId) == routeId)
  }

  function ConductorOf(ks: seq<ConductorProfile>, conductorId: Option<string>): Option<string> {
    match First(ks, (k: ConductorProfile) => Some(k.conductorId) == conductorId)
    case Some(k) => Some(k.conductorId)
    case None => None
  }

  function CommuterRow(x: Transaction, t: Tables): CommuterTransactionRow {
    var route := RouteOf(t.routes, x.routeId);
    CommuterTransactionRow(x, if route.Some? then Some(route.value.origin) else None,
                           if route.Some? then Some(route.value.destination) else None,
                           PlateOf(t.vehicles, x.vehicleId), ConductorOf(t.conductors, x.conductorId))
  }

  /** get_commuter_transactions: the commuter's transactions in table order,
    * each with its route's endpoints, vehicle plate and conductor. */
  function CommuterTransactions(t: Tables, commuterId: Option<string>): (r: seq<CommuterTransactionRow>)
    ensures forall i :: 0 <= i < |r| ==> (r[i].transaction in t.transactions
      && Matches(r[i].transaction.commuterId, commuterId) && r[i] == CommuterRow(r[i].transaction, t))
    ensures forall x :: x in t.transactions && Matches(x.commuterId, commuterId) ==>
      exists i :: 0 <= i < |r| && r[i].transaction == x
  {
    var hits := Filter(t.transactions, (x: Transaction) => Matches(x.commuterId, commuterId));
    var r := Project(hits, (x: Transaction) => CommuterRow(x, t));
    assert forall x :: x in hits ==> exists i :: 0 <= i < |hits| && hits[i] == x && r[i].transaction == x;
    r
  }

  // ------------------------------------------------------ authenticate_user

  /** The row authenticate_user hands to the panels: the user's own
    * columns and, from each role table, the columns it selects (NULL where
    * the user has no such row). */
  datatype AuthRecord = AuthRecord(
    user: User, commuterId: Option<string>, contactNo: Option<string>, discountType: Option<string>,
    driverId: Option<string>, licenseNo: Option<string>, conductorId: Option<string>,
    adminId: Option<string>, preferredRoute: Value)

  predicate Credentials(u: User, username: string, password: string) {
    u.username == username && u.password == password
  }

  /** The columns each LEFT JOIN of authenticate_user contributes: those of
    * the user's first row of that table (the row fetchone takes), or NULLs
    * when the user has none, in agreement with the role queries. */
  predicate CommuterColumns(t: Tables, uid: int, commuterId: Option<string>, contactNo: Option<string>,
                            discountType: Option<string>) {
    var cids := CommuterIdsOfUser(t, uid);
    && commuterId == (if cids == [] then None else cids[0])
    && (cids == [] ==> contactNo.None? && discountType.None?)
    && (cids != [] ==> var c := Filter(t.commuters, CommuterOfUser(uid))[0];
                       c.contactNo == contactNo && c.discountType == discountType)
  }

  predicate DriverColumns(t: Tables, uid: int, driverId: Option<string>, licenseNo: Option<string>) {
    var dids := DriverIdsOfUser(t, uid);
    && driverId == (if dids == [] then None else Some(dids[0]))
    && (dids == [] ==> licenseNo.None?)
    && (dids != [] ==> Filter(t.drivers, DriverOfUser(uid))[0].licenseNo == licenseNo)
  }

  predicate ConductorColumn(t: Tables, uid: int, conductorId: Option<string>) {
    var kids := ConductorIdsOfUser(t, uid);
    conductorId == (if kids == [] then None else Some(kids[0]))
  }

  predicate AdminColumn(t: Tables, uid: int, adminId: Option<string>) {
    && (adminId.Some? <==> exists a :: a in t.admins && a.userId == Some(uid))
    && (adminId.Some? ==> adminId.value == Filter(t.admins, AdminOfUser(uid))[0].adminId)
  }

  /** Every role column of a login record comes from its user's role rows. */
  predicate RolesJoined(t: Tables, r: AuthRecord) {
    && CommuterColumns(t, r.user.userId, r.commuterId, r.contactNo, r.discountType)
    && DriverColumns(t, r.user.userId, r.driverId, r.licenseNo)
    && ConductorColumn(t, r.user.userId, r.conductorId)
    && AdminColumn(t, r.user.userId, r.adminId)
  }

  function JoinCommuter(t: Tables, uid: int): (r: (Option<string>, Option<string>, Option<string>))
    ensures CommuterColumns(t, uid, r.0, r.1, r.2)
  {
    var c := First(t.commuters, CommuterOfUser(uid));
    FirstIsFilterHead(t.commuters, CommuterOfUser(uid));
    if c.Some? then (c.value.commuterId, c.value.contactNo, c.value.discountType) else (None, None, None)
  }

  function JoinDriver(t: Tables, uid: int): (r: (Option<string>, Option<string>))
    ensures DriverColumns(t, uid, r.0, r.1)
  {
    var d := First(t.drivers, DriverOfUser(uid));
    FirstIsFilterHead(t.drivers, DriverOfUser(uid));
    if d.Some? then (Some(d.value.driverId), d.value.licenseNo) else (None, None)
  }

  function JoinConductor(t: Tables, uid: int): (r: Option<string>)
    ensures ConductorColumn(t, uid, r)
  {
    var k := First(t.conductors, ConductorOfUser(uid));
    FirstIsFilterHead(t.conductors, ConductorOfUser(uid));
    if k.Some? then Some(k.value.conductorId) else None
  }

  function JoinAdmin(t: Tables, uid: int): (r: Option<string>)
    ensures AdminColumn(t, uid, r)
  {
    var a := First(t.admins, AdminOfUser(uid));
    FirstIsFilterHead(t.admins, AdminOfUser(uid));
    if a.Some? then Some(a.value.adminId) else None
  }

  /** The LEFT JOINs of the user with each role table, as fetchone sees
    * them; `preferredRoute` is what the row carries under that key. */
  function JoinRoles(t: Tables, u: User, preferredRoute: Value): (r: AuthRecord)
    ensures r.user == u && r.preferredRoute == preferredRoute
    ensures RolesJoined(t, r)
  {
    var c := JoinCommuter(t, u.userId);
    var d := JoinDriver(t, u.userId);
    AuthRecord(u, c.0, c.1, c.2, d.0, d.1, JoinConductor(t, u.userId), JoinAdmin(t, u.userId), preferredRoute)
  }

  /** authenticate_user as written: the first user with exactly this
    * username and exactly this password, joined to the role tables. The
    * select list names no preferred_route, so the record never has one. */
  function Authenticate(t: Tables, username: string, password: string): (r: Option<AuthRecord>)
    ensures r.Some? <==> exists u :: u in t.users && Credentials(u, username, password)
    ensures r.Some? ==> r.value.user in t.users && Credentials(r.value.user, username, password)
    ensures r.Some? ==> r.value.preferredRoute == NoneV
    ensures r.Some? ==> RolesJoined(t, r.value)
  {
    match First(t.users, (u: User) => Credentials(u, username, password))
    case Some(u) => Some(JoinRoles(t, u, NoneV))
    case None => None
  }

  /** The commuter's stored preferred route, as c.* would carry it. */
  function StoredPreferredRoute(t: Tables, u: User): Value {
    var c := First(t.commuters, CommuterOfUser(u.userId));
    if c.Some? then c.value.preferredRoute else NoneV
  }

  /** authenticate_user with c.preferred_route in its select list: the
    * record then carries the route the commuter has stored. */
  function AuthenticateWithRoute(t: Tables, username: string, password: string): (r: Option<AuthRecord>)
    ensures r.Some? <==> exists u :: u in t.users && Credentials(u, username, password)
    ensures r.Some? ==> r.value.user in t.users && Credentials(r.value.user, username, password)
    ensures r.Some? ==> r.value.preferredRoute == StoredPreferredRoute(t, r.value.user)
    ensures r.Some? ==> RolesJoined(t, r.value)
    ensures r.Some? ==> Authenticate(t, username, password) == Some(r.value.(preferredRoute := NoneV))
  {
    match First(t.users, (u: User) => Credentials(u, username, password))
    case Some(u) => Some(JoinRoles(t, u, StoredPreferredRoute(t, u)))
    case None => None
  }

  /** With usernames unique, a successful login is that user's row. */
  lemma AuthenticateFindsTheUser(t: Tables, u: User, password: string)
    requires UniqueUsernames(t.users) && u in t.users && u.password == password
    ensures Authenticate(t, u.username, password).Some?
    ensures Authenticate(t, u.username, password).value.user == u
  {
    var r := Authenticate(t, u.username, password);
    var v := r.value.user;
    var i :| 0 <= i < |t.users| && t.users[i] == u;
    var j :| 0 <= j < |t.users| && t.users[j] == v;
    assert i == j;
  }

  /** The refresh after a profile update:
    * SELECT u.*, c.* FROM users u JOIN commuters c ... WHERE u.user_id = ?. */
  function ProfileRows(t: Tables, userId: int): (r: seq<(User, CommuterProfile)>)
    ensures forall row :: row in r ==> (row.0 in t.users && row.1 in t.commuters
      && row.0.userId == userId && row.1.userId == userId)
    ensures r == [] <==> !(exists u, c :: u in t.users && c in t.commuters && u.userId == userId && c.userId == userId)
  {
    var us := Filter(t.users, (u: User) => u.userId == userId);
    var cs := Filter(t.commuters, (c: CommuterProfile) => c.userId == userId);
    var r := Cross(us, cs);
    assert r != [] ==> r[0] in r;
    forall u, c | u in t.users && c in t.commuters && u.userId == userId && c.userId == userId
      ensures (u, c) in r
    {
      assert u in us && c in cs;
    }
    r
  }
}
