/**
 * The effect on the tables of each data-modifying statement the core
 * issues, with the constraint checks SQLite performs on it, and the proof
 * that a statement that succeeds keeps every constraint of the schema.
 */
module Store {
  import opened Wrappers
  import opened Schema

  /** What a REAL column receives for a bound text: a number when SQLite's
    * REAL affinity reads the text as one, the text itself otherwise. */
  datatype SqlNumber = Numeric(x: real) | NonNumeric

  /** The constraint failures sqlite3 raises as IntegrityError. */
  datatype SqlError = UniqueViolation | NotNullViolation | CheckViolation | ForeignKeyViolation

  datatype Statement =
      /** INSERT INTO users (username, password, first_name, last_name, email, user_type) */
    | InsertUser(username: string, password: string, firstName: string, lastName: string,
                 email: string, userType: UserType)
      /** INSERT INTO commuters (user_id) */
    | InsertCommuterFor(userId: int)
      /** UPDATE users SET first_name, last_name, email, password WHERE user_id */
    | UpdateUserProfile(userId: int, firstName: string, lastName: string, email: string, password: string)
      /** UPDATE commuters SET contact_no, discount_type, preferred_route WHERE user_id */
    | UpdateCommuterProfile(userId: int, contactNo: string, discountType: string, preferredRoute: Option<int>)
      /** INSERT INTO feedbacks (commuter_id, driver_id, conductor_id, rating, comment) */
    | InsertFeedback(commuterId: Option<string>, driverId: Option<string>, conductorId: Option<string>,
                     rating: SqlNumber, comment: string)
      /** INSERT INTO vehicle_assignment; a missing date takes CURRENT_TIMESTAMP, `now` */
    | InsertAssignment(vehicleId: Option<string>, driverId: Option<string>, conductorId: Option<string>,
                       assignmentDate: Option<nat>, now: nat)

  predicate UsernameTaken(us: seq<User>, name: string) {
    exists u :: u in us && u.username == name
  }

  predicate EmailTaken(us: seq<User>, email: string) {
    exists u :: u in us && u.email == Some(email)
  }

  /** Some user other than `id` already holds `email`. */
  predicate EmailTakenByOther(us: seq<User>, id: int, email: string) {
    exists u :: u in us && u.userId != id && u.email == Some(email)
  }

  predicate HasCommuterOfUser(cs: seq<CommuterProfile>, id: int) {
    exists c :: c in cs && c.userId == id
  }

  // ------------------------------------------------------------ statements

  /** The new row takes the next AUTOINCREMENT id; UNIQUE on username and
    * email is the only constraint a bound text can break. */
  function InsertUserRow(t: Tables, username: string, password: string, firstName: string,
                         lastName: string, email: string, userType: UserType): (r: Result<Tables, SqlError>)
    ensures r.Err? <==> UsernameTaken(t.users, username) || EmailTaken(t.users, email)
    ensures r.Ok? ==> (r.value.userSeq == t.userSeq + 1
      && r.value.users == t.users + [User(r.value.userSeq, username, firstName, lastName, Some(email), password, userType)]
      && r.value.(users := t.users, userSeq := t.userSeq) == t)
  {
    if UsernameTaken(t.users, username) || EmailTaken(t.users, email) then Err(UniqueViolation)
    else
      var id := t.userSeq + 1;
      Ok(t.(users := t.users + [User(id, username, firstName, lastName, Some(email), password, userType)],
            userSeq := id))
  }

  /** commuter_id is not given, so it is NULL; discount_type takes its
    * DEFAULT 'None'; the user must exist. */
  function InsertCommuterRow(t: Tables, userId: int): (r: Result<Tables, SqlError>)
    ensures r.Err? <==> !HasUser(t.users, userId)
    ensures r.Ok? ==> (userId >= 0
      && r.value.commuters == t.commuters + [CommuterProfile(None, userId, None, Some("None"), NoneV)]
      && r.value.(commuters := t.commuters) == t)
  {
    if !HasUser(t.users, userId) then Err(ForeignKeyViolation)
    else
      var u :| u in t.users && u.userId == userId;
      Ok(t.(commuters := t.commuters + [CommuterProfile(None, u.userId, None, Some("None"), NoneV)]))
  }

  function SetProfile(u: User, id: int, firstName: string, lastName: string, email: string, password: string): User {
    if u.userId == id then u.(firstName := firstName, lastName := lastName, email := Some(email), password := password)
    else u
  }

  /** Every row of `user_id = id` receives the four values; it fails only
    * when a row is touched and its new email is another user's. */
  function UpdateUserRows(t: Tables, id: int, firstName: string, lastName: string, email: string,
                          password: string): (r: Result<Tables, SqlError>)
    ensures r.Err? <==> HasUser(t.users, id) && EmailTakenByOther(t.users, id, email)
    ensures r.Ok? ==> (|r.value.users| == |t.users| && r.value.(users := t.users) == t
      && forall i :: 0 <= i < |t.users| ==> r.value.users[i] == SetProfile(t.users[i], id, firstName, lastName, email, password))
  {
    if HasUser(t.users, id) && EmailTakenByOther(t.users, id, email) then Err(UniqueViolation)
    else Ok(t.(users := seq(|t.users|, i requires 0 <= i < |t.users| =>
                            SetProfile(t.users[i], id, firstName, lastName, email, password))))
  }

  function PreferredValue(p: Option<int>): Value {
    if p.Some? then IntV(p.value) else NoneV
  }

  function SetCommuter(c: CommuterProfile, id: int, contactNo: string, discountType: string, preferred: Option<int>): CommuterProfile {
    if c.userId == id then c.(contactNo := Some(contactNo), discountType := Some(discountType),
                              preferredRoute := PreferredValue(preferred))
    else c
  }

  /** Every commuters row of the user receives the values; a preferred
    * route that names no route fails the foreign key, if a row is touched. */
  function UpdateCommuterRows(t: Tables, id: int, contactNo: string, discountType: string,
                              preferred: Option<int>): (r: Result<Tables, SqlError>)
    ensures r.Err? <==> (HasCommuterOfUser(t.commuters, id) && preferred.Some? && !HasRoute(t.routes, preferred.value))
    ensures r.Ok? ==> (|r.value.commuters| == |t.commuters| && r.value.(commuters := t.commuters) == t
      && forall i :: 0 <= i < |t.commuters| ==>
           r.value.commuters[i] == SetCommuter(t.commuters[i], id, contactNo, discountType, preferred))
  {
    if HasCommuterOfUser(t.commuters, id) && preferred.Some? && !HasRoute(t.routes, preferred.value) then
      Err(ForeignKeyViolation)
    else
      Ok(t.(commuters := seq(|t.commuters|, i requires 0 <= i < |t.commuters| =>
                              SetCommuter(t.commuters[i], id, contactNo, discountType, preferred))))
  }

  /** The rating CHECK admits only a number in [0, 5]; each given
    * reference must name an existing row. */
  function InsertFeedbackRow(t: Tables, commuterId: Option<string>, driverId: Option<string>,
                             conductorId: Option<string>, rating: SqlNumber, comment: string): (r: Result<Tables, SqlError>)
    ensures r.Ok? <==> (rating.Numeric? && 0.0 <= rating.x <= 5.0
      && FeedbackRefsOk(Feedback(0, commuterId, driverId, conductorId, None, None), t.commuters, t.drivers, t.conductors))
    ensures r.Ok? ==> (r.value.feedbackSeq == t.feedbackSeq + 1
      && r.value.feedbacks == t.feedbacks + [Feedback(r.value.feedbackSeq, commuterId, driverId, conductorId,
                                                      Some(rating.x), Some(comment))]
      && r.value.(feedbacks := t.feedbacks, feedbackSeq := t.feedbackSeq) == t)
  {
    if !(rating.Numeric? && 0.0 <= rating.x <= 5.0) then Err(CheckViolation)
    else if !FeedbackRefsOk(Feedback(0, commuterId, driverId, conductorId, None, None), t.commuters, t.drivers, t.conductors) then
      Err(ForeignKeyViolation)
    else
      var id := t.feedbackSeq + 1;
      Ok(t.(feedbacks := t.feedbacks + [Feedback(id, commuterId, driverId, conductorId, Some(rating.x), Some(comment))],
            feedbackSeq := id))
  }

  /** The three references are NOT NULL and must exist; the date defaults
    * to the current time. */
  function InsertAssignmentRow(t: Tables, vehicleId: Option<string>, driverId: Option<string>,
                               conductorId: Option<string>, date: Option<nat>, now: nat): (r: Result<Tables, SqlError>)
    ensures (vehicleId.None? || driverId.None? || conductorId.None?) ==> r == Err(NotNullViolation)
    ensures r.Ok? <==> (vehicleId.Some? && driverId.Some? && conductorId.Some?
      && HasVehicle(t.vehicles, vehicleId.value) && HasDriver(t.drivers, driverId.value)
      && HasConductor(t.conductors, conductorId.value))
    ensures r.Ok? ==> (r.value.assignmentSeq == t.assignmentSeq + 1
      && r.value.assignments == t.assignments + [Assignment(r.value.assignmentSeq, vehicleId.value, driverId.value,
                                                            conductorId.value, date.GetOr(now))]
      && r.value.(assignments := t.assignments, assignmentSeq := t.assignmentSeq) == t)
  {
    if vehicleId.None? || driverId.None? || conductorId.None? then Err(NotNullViolation)
    else if !(HasVehicle(t.vehicles, vehicleId.value) && HasDriver(t.drivers, driverId.value)
              && HasConductor(t.conductors, conductorId.value)) then Err(ForeignKeyViolation)
    else
      var id := t.assignmentSeq + 1;
      Ok(t.(assignments := t.assignments + [Assignment(id, vehicleId.value, driverId.value, conductorId.value,
                                                       date.GetOr(now))],
            assignmentSeq := id))
  }

  /** One statement: the new tables, or the constraint it breaks (the
    * tables are then as before, since a failed statement is undone). */
  function Apply(t: Tables, s: Statement): Result<Tables, SqlError> {
    match s
    case InsertUser(n, p, f, l, e, ty) => InsertUserRow(t, n, p, f, l, e, ty)
    case InsertCommuterFor(id) => InsertCommuterRow(t, id)
    case UpdateUserProfile(id, f, l, e, p) => UpdateUserRows(t, id, f, l, e, p)
    case UpdateCommuterProfile(id, c, d, p) => UpdateCommuterRows(t, id, c, d, p)
    case InsertFeedback(c, d, k, r, m) => InsertFeedbackRow(t, c, d, k, r, m)
    case InsertAssignment(v, d, k, dt, now) => InsertAssignmentRow(t, v, d, k, dt, now)
  }

  // ------------------------------------------------ constraint preservation

  lemma HasUserSameIds(us: seq<User>, us': seq<User>)
    requires |us'| == |us| && forall i :: 0 <= i < |us| ==> us'[i].userId == us[i].userId
    ensures forall id :: HasUser(us', id) <==> HasUser(us, id)
  {
    forall id ensures HasUser(us', id) <==> HasUser(us, id) {
      if HasUser(us', id) {
        var u :| u in us' && u.userId == id;
        var i :| 0 <= i < |us'| && us'[i] == u;
        assert us[i] in us;
      }
      if HasUser(us, id) {
        var u :| u in us && u.userId == id;
        var i :| 0 <= i < |us| && us[i] == u;
        assert us'[i] in us';
      }
    }
  }

  lemma HasCommuterSameIds(cs: seq<CommuterProfile>, cs': seq<CommuterProfile>)
    requires |cs'| == |cs| && forall i :: 0 <= i < |cs| ==> cs'[i].commuterId == cs[i].commuterId
    ensures forall id :: HasCommuter(cs', id) <==> HasCommuter(cs, id)
  {
    forall id ensures HasCommuter(cs', id) <==> HasCommuter(cs, id) {
      if HasCommuter(cs', id) {
        var c :| c in cs' && c.commuterId == Some(id);
        var i :| 0 <= i < |cs'| && cs'[i] == c;
        assert cs[i] in cs;
      }
      if HasCommuter(cs, id) {
        var c :| c in cs && c.commuterId == Some(id);
        var i :| 0 <= i < |cs| && cs[i] == c;
        assert cs'[i] in cs';
      }
    }
  }

  lemma InsertUserKeepsConsistent(t: Tables, username: string, password: string, firstName: string,
                                  lastName: string, email: string, userType: UserType)
    requires Consistent(t)
    ensures var r := InsertUserRow(t, username, password, firstName, lastName, email, userType);
            r.Ok? ==> Consistent(r.value)
  {
    var r := InsertUserRow(t, username, password, firstName, lastName, email, userType);
    if r.Ok? {
      var t' := r.value;
      var n := |t.users|;
      assert forall i :: 0 <= i < n ==> t'.users[i] == t.users[i] && t.users[i] in t.users;
      assert forall id :: HasUser(t.users, id) ==> HasUser(t'.users, id);
    }
  }

  lemma InsertCommuterKeepsConsistent(t: Tables, userId: int)
    requires Consistent(t)
    ensures var r := InsertCommuterRow(t, userId); r.Ok? ==> Consistent(r.value)
  {
    var r := InsertCommuterRow(t, userId);
    if r.Ok? {
      var t' := r.value;
      var n := |t.commuters|;
      assert forall i :: 0 <= i < n ==> t'.commuters[i] == t.commuters[i];
      assert forall id :: HasCommuter(t'.commuters, id) ==> HasCommuter(t.commuters, id);
      assert forall id :: HasCommuter(t.commuters, id) ==> HasCommuter(t'.commuters, id);
    }
  }

  lemma UpdateUserKeepsConsistent(t: Tables, id: int, firstName: string, lastName: string, email: string,
                                  password: string)
    requires Consistent(t)
    ensures var r := UpdateUserRows(t, id, firstName, lastName, email, password); r.Ok? ==> Consistent(r.value)
  {
    var r := UpdateUserRows(t, id, firstName, lastName, email, password);
    if r.Ok? {
      var us, us' := t.users, r.value.users;
      HasUserSameIds(us, us');
      forall i, j | 0 <= i < j < |us'| && us'[i].email.Some? ensures us'[i].email != us'[j].email {
        if us[i].userId == id && us[j].userId != id {
          assert us[j] in us;
        } else if us[j].userId == id && us[i].userId != id {
          assert us[i] in us;
        }
      }
    }
  }

  lemma UpdateCommuterKeepsConsistent(t: Tables, id: int, contactNo: string, discountType: string,
                                      preferred: Option<int>)
    requires Consistent(t)
    ensures var r := UpdateCommuterRows(t, id, contactNo, discountType, preferred); r.Ok? ==> Consistent(r.value)
  {
    var r := UpdateCommuterRows(t, id, contactNo, discountType, preferred);
    if r.Ok? {
      var cs, cs' := t.commuters, r.value.commuters;
      HasCommuterSameIds(cs, cs');
      forall i | 0 <= i < |cs'| ensures PreferredRouteOk(cs'[i].preferredRoute, t.routes) {
        if cs[i].userId == id {
          assert cs[i] in cs;
        }
      }
    }
  }

  lemma InsertFeedbackKeepsConsistent(t: Tables, commuterId: Option<string>, driverId: Option<string>,
                                      conductorId: Option<string>, rating: SqlNumber, comment: string)
    requires Consistent(t)
    ensures var r := InsertFeedbackRow(t, commuterId, driverId, conductorId, rating, comment);
            r.Ok? ==> Consistent(r.value)
  {
  }

  lemma InsertAssignmentKeepsConsistent(t: Tables, vehicleId: Option<string>, driverId: Option<string>,
                                        conductorId: Option<string>, date: Option<nat>, now: nat)
    requires Consistent(t)
    ensures var r := InsertAssignmentRow(t, vehicleId, driverId, conductorId, date, now);
            r.Ok? ==> Consistent(r.value)
  {
  }

  /** Every statement that succeeds leaves a database that meets every
    * constraint of the schema. */
  lemma ApplyKeepsConsistent(t: Tables, s: Statement)
    requires Consistent(t)
    ensures Apply(t, s).Ok? ==> Consistent(Apply(t, s).value)
  {
    match s
    case InsertUser(n, p, f, l, e, ty) => InsertUserKeepsConsistent(t, n, p, f, l, e, ty);
    case InsertCommuterFor(id) => InsertCommuterKeepsConsistent(t, id);
    case UpdateUserProfile(id, f, l, e, p) => UpdateUserKeepsConsistent(t, id, f, l, e, p);
    case UpdateCommuterProfile(id, c, d, p) => UpdateCommuterKeepsConsistent(t, id, c, d, p);
    case InsertFeedback(c, d, k, r, m) => InsertFeedbackKeepsConsistent(t, c, d, k, r, m);
    case InsertAssignment(v, d, k, dt, now) => InsertAssignmentKeepsConsistent(t, v, d, k, dt, now);
  }
}
