/**
 * CommuterPanel: the commuter's own window. Modelled here are the feedback
 * form's checks and its one INSERT, the profile form's transaction over the
 * users and commuters rows, and the rules that read a preferred route back
 * from a combo box or from the stored row.
 */
module CommuterPanel {
  import opened Wrappers
  import opened Schema
  import opened Store
  import opened Queries
  import opened Text
  import opened Ordering
  import opened Database

  // ------------------------------------------------- Python values and int()

  /** Python's truth value of a cell or of a combo box's item data. */
  predicate Truthy(v: Value) {
    match v
    case NoneV => false
    case IntV(i) => i != 0
    case RealV(x) => x != 0.0
    case TextV(s) => s != []
  }

  /** int(x) on a float: the fraction is dropped, toward zero. */
  function TruncateTowardZero(x: real): (r: int)
    ensures 0.0 <= x ==> r as real <= x < r as real + 1.0
    ensures x < 0.0 ==> r as real - 1.0 < x <= r as real
  {
    if x >= 0.0 then x.Floor else -((-x).Floor)
  }

  /** int(v); None where Python raises TypeError (None) or ValueError (a
    * text that does not spell an integer). */
  function PyInt(v: Value): (r: Option<int>)
    ensures v.NoneV? ==> r.None?
    ensures v.IntV? ==> r == Some(v.i)
    ensures v.TextV? ==> r == ParseInt(v.s)
    ensures v.RealV? ==> r == Some(TruncateTowardZero(v.x))
  {
    match v
    case NoneV => None
    case IntV(i) => Some(i)
    case RealV(x) => Some(TruncateTowardZero(x))
    case TextV(s) => ParseInt(s)
  }

  /** update_commuter_info: `int(route) if route else None`, with an error
    * in int() also giving None. */
  function NormalizeSelectedRoute(v: Value): (r: Option<int>)
    ensures !Truthy(v) ==> r.None?
    ensures Truthy(v) ==> r == PyInt(v)
    ensures r.Some? ==> Truthy(v)
  {
    if Truthy(v) then PyInt(v) else None
  }

  /** load_commuter_data: `int(route)` unless it is None, with an error in
    * int() giving None. Unlike the rule above, 0 stays 0. */
  function NormalizeStoredRoute(v: Value): (r: Option<int>)
    ensures v.NoneV? ==> r.None?
    ensures !v.NoneV? ==> r == PyInt(v)
  {
    if v.NoneV? then None else PyInt(v)
  }

  /** A route id written as its decimal text reads back as that id. */
  lemma SelectedRouteFromText(i: int)
    requires i != 0
    ensures NormalizeSelectedRoute(TextV(IntToText(i))) == Some(i)
  {
    ParseIntRoundTrip(i);
    assert IntToText(i) != [] by {
      assert ParseInt([]) == None;
    }
  }

  /** The two rules agree except on the falsy values, which only the
    * selection rule turns into None. */
  lemma NormalizationsAgreeOnTruthy(v: Value)
    requires Truthy(v)
    ensures NormalizeSelectedRoute(v) == NormalizeStoredRoute(v)
  {
  }

  // -------------------------------------------------- the route combo box

  /** The combo's current index for a preferred route: one past the last
    * route whose id equals it, and 0 (the placeholder) when none does. */
  function LastMatchIndex(routes: seq<RouteRow>, preferred: Option<int>): (index: nat)
    ensures index <= |routes|
    ensures index == 0 <==> forall i :: 0 <= i < |routes| ==> Some(routes[i].routeId as int) != preferred
    ensures index > 0 ==> Some(routes[index - 1].routeId as int) == preferred
    ensures forall i :: index <= i < |routes| ==> Some(routes[i].routeId as int) != preferred
  {
    if routes == [] then 0
    else if Some(routes[|routes| - 1].routeId as int) == preferred then |routes|
    else LastMatchIndex(routes[..|routes| - 1], preferred)
  }

  /** The loop of load_commuter_data over the rows of get_routes. */
  method SelectRouteIndex(routes: seq<RouteRow>, preferred: Option<int>) returns (index: nat)
    ensures index == LastMatchIndex(routes, preferred)
  {
    index := 0;
    for i := 0 to |routes|
      invariant index == LastMatchIndex(routes[..i], preferred)
    {
      assert routes[..i + 1][..i] == routes[..i];
      if Some(routes[i].routeId as int) == preferred {
        index := i + 1;
      }
    }
    assert routes[..|routes|] == routes;
  }

  /** currentData() at an index: None for the placeholder, else the id. */
  function ComboData(routes: seq<RouteRow>, index: nat): (v: Value)
    requires index <= |routes|
    ensures index == 0 ==> v == NoneV
    ensures index > 0 ==> v == IntV(routes[index - 1].routeId)
  {
    if index == 0 then NoneV else IntV(routes[index - 1].routeId)
  }

  /** Selecting the stored route in the combo and reading the combo back
    * gives the stored route, when it is among the routes and is not 0. */
  lemma ComboRoundTrip(routes: seq<RouteRow>, k: int)
    requires k != 0
    requires exists i :: 0 <= i < |routes| && routes[i].routeId as int == k
    ensures NormalizeSelectedRoute(ComboData(routes, LastMatchIndex(routes, Some(k)))) == Some(k)
  {
    var i :| 0 <= i < |routes| && routes[i].routeId as int == k;
    assert Some(routes[i].routeId as int) == Some(k);
  }

  // -------------------------------------------------------------- feedback

  /** What float() gives for a text that it accepts. */
  datatype FloatValue = Finite(x: real) | NaN | PosInfinity | NegInfinity

  /** `rating_value < 0 or rating_value > 5`; every comparison with NaN is
    * false, so NaN is not out of range. */
  predicate OutOfRange(f: FloatValue) {
    match f
    case Finite(x) => x < 0.0 || x > 5.0
    case NaN => false
    case PosInfinity => true
    case NegInfinity => true
  }

  /** A combo's item data is a selection when it is a non-empty id. */
  predicate Picked(id: Option<string>) {
    id.Some? && id.value != []
  }

  datatype FeedbackCheck =
    | MissingInformation
    | NotANumber
    | InvalidRating
    | MissingSelection
    | Accepted(rating: string, comment: string)

  /** The checks of submit_feedback, in their order. `parseFloat` is
    * float(): None where it raises ValueError. */
  function ValidateFeedback(ratingText: string, commentText: string, driver: Option<string>,
                            conductor: Option<string>, parseFloat: string -> Option<FloatValue>): (r: FeedbackCheck)
    ensures r == MissingInformation <==> Strip(ratingText) == [] || Strip(commentText) == []
    ensures r == NotANumber <==>
      Strip(ratingText) != [] && Strip(commentText) != [] && parseFloat(Strip(ratingText)).None?
    ensures r == InvalidRating <==>
      Strip(ratingText) != [] && Strip(commentText) != [] && parseFloat(Strip(ratingText)).Some?
      && OutOfRange(parseFloat(Strip(ratingText)).value)
    ensures r == MissingSelection ==> !Picked(driver) && !Picked(conductor)
    ensures r.Accepted? <==>
      && Strip(ratingText) != [] && Strip(commentText) != []
      && parseFloat(Strip(ratingText)).Some? && !OutOfRange(parseFloat(Strip(ratingText)).value)
      && (Picked(driver) || Picked(conductor))
    ensures r.Accepted? ==> r.rating == Strip(ratingText) && r.comment == Strip(commentText)
  {
    var rating := Strip(ratingText);
    var comment := Strip(commentText);
    if rating == [] || comment == [] then MissingInformation
    else
      match parseFloat(rating)
      case None => NotANumber
      case Some(f) =>
        if OutOfRange(f) then InvalidRating
        else if !Picked(driver) && !Picked(conductor) then MissingSelection
        else Accepted(rating, comment)
  }

  /** The bounds 0 and 5 themselves are accepted. */
  lemma BoundsAccepted(ratingText: string, commentText: string, driver: Option<string>,
                       conductor: Option<string>, parseFloat: string -> Option<FloatValue>)
    requires Strip(ratingText) != [] && Strip(commentText) != [] && Picked(driver)
    requires parseFloat(Strip(ratingText)) == Some(Finite(0.0)) || parseFloat(Strip(ratingText)) == Some(Finite(5.0))
    ensures ValidateFeedback(ratingText, commentText, driver, conductor, parseFloat).Accepted?
  {
  }

  /** A driver alone or a conductor alone is a selection. */
  lemma EitherSelectionSuffices(ratingText: string, commentText: string, who: string,
                                parseFloat: string -> Option<FloatValue>)
    requires who != []
    ensures ValidateFeedback(ratingText, commentText, Some(who), None, parseFloat)
         == ValidateFeedback(ratingText, commentText, None, Some(who), parseFloat)
    ensures ValidateFeedback(ratingText, commentText, None, None, parseFloat) == MissingSelection
        <==> ValidateFeedback(ratingText, commentText, Some(who), None, parseFloat).Accepted?
  {
  }

  /** "nan" passes the form's checks, but the text reaches the REAL column
    * as text and the rating CHECK refuses the row. */
  lemma NanPassesFormButNotStore(t: Tables, ratingText: string, commentText: string, commuterId: Option<string>,
                                 driver: Option<string>, conductor: Option<string>,
                                 parseFloat: string -> Option<FloatValue>)
    requires Strip(ratingText) != [] && Strip(commentText) != [] && Picked(conductor)
    requires parseFloat(Strip(ratingText)) == Some(NaN)
    ensures ValidateFeedback(ratingText, commentText, driver, conductor, parseFloat).Accepted?
    ensures Apply(t, InsertFeedback(commuterId, driver, conductor, NonNumeric, Strip(commentText))) == Err(CheckViolation)
  {
  }

  /** The form's fields, as the panel's line edits and combo show them. */
  datatype ProfileForm = ProfileForm(firstName: string, lastName: string, email: string, password: string,
                                     contactNo: string, discountType: string)

  /** Both UPDATEs of update_commuter_info applied in turn, None when either
    * breaks a constraint. Names, email and contact are stripped; the
    * password is not. */
  function ProfileUpdate(t: Tables, userId: int, form: ProfileForm, selected: Value): (r: Option<Tables>)
    ensures r.None? <==>
      (HasUser(t.users, userId) && EmailTakenByOther(t.users, userId, Strip(form.email)))
      || (HasCommuterOfUser(t.commuters, userId) && NormalizeSelectedRoute(selected).Some?
          && !HasRoute(t.routes, NormalizeSelectedRoute(selected).value))
    ensures r.Some? ==>
      && |r.value.users| == |t.users| && |r.value.commuters| == |t.commuters|
      && r.value.(users := t.users, commuters := t.commuters) == t
      && (forall i :: 0 <= i < |t.users| ==>
            r.value.users[i] == SetProfile(t.users[i], userId, Strip(form.firstName), Strip(form.lastName),
                                           Strip(form.email), form.password))
      && (forall i :: 0 <= i < |t.commuters| ==>
            r.value.commuters[i] == SetCommuter(t.commuters[i], userId, Strip(form.contactNo), form.discountType,
                                                NormalizeSelectedRoute(selected)))
  {
    var first := UpdateUserRows(t, userId, Strip(form.firstName), Strip(form.lastName), Strip(form.email), form.password);
    if first.Err? then None
    else
      var t1 := first.value;
      assert t1.commuters == t.commuters && t1.routes == t.routes;
      var second := UpdateCommuterRows(t1, userId, Strip(form.contactNo), form.discountType, NormalizeSelectedRoute(selected));
      if second.Err? then None
      else
        assert second.value.(users := t.users, commuters := t.commuters) == t1.(users := t.users);
        Some(second.value)
  }

  /** The profile update is the users UPDATE followed by the commuters
    * UPDATE, each as the connection applies it. */
  lemma ProfileUpdateIsTwoStatements(t: Tables, userId: int, form: ProfileForm, selected: Value)
    ensures var s1 := UpdateUserProfile(userId, Strip(form.firstName), Strip(form.lastName), Strip(form.email), form.password);
            var s2 := UpdateCommuterProfile(userId, Strip(form.contactNo), form.discountType, NormalizeSelectedRoute(selected));
      ProfileUpdate(t, userId, form, selected)
        == if Apply(t, s1).Err? || Apply(Apply(t, s1).value, s2).Err? then None else Some(Apply(Apply(t, s1).value, s2).value)
  {
    var first := UpdateUserRows(t, userId, Strip(form.firstName), Strip(form.lastName), Strip(form.email), form.password);
    var route := NormalizeSelectedRoute(selected);
    if first.Ok? {
      var second := UpdateCommuterRows(first.value, userId, Strip(form.contactNo), form.discountType, route);
      assert ProfileUpdate(t, userId, form, selected) == if second.Err? then None else Some(second.value);
    } else {
      assert ProfileUpdate(t, userId, form, selected) == None;
    }
  }

  lemma ProfileUpdateKeepsConsistent(t: Tables, userId: int, form: ProfileForm, selected: Value)
    requires Consistent(t) && ProfileUpdate(t, userId, form, selected).Some?
    ensures Consistent(ProfileUpdate(t, userId, form, selected).value)
  {
    var s1 := UpdateUserProfile(userId, Strip(form.firstName), Strip(form.lastName), Strip(form.email), form.password);
    ApplyKeepsConsistent(t, s1);
    var t1 := Apply(t, s1).value;
    ApplyKeepsConsistent(t1, UpdateCommuterProfile(userId, Strip(form.contactNo), form.discountType, NormalizeSelectedRoute(selected)));
  }

  /** user_data.update(dict(row)) for a row of `u.*, c.*`. */
  function MergeProfile(r: AuthRecord, row: (User, CommuterProfile)): AuthRecord {
    r.(user := row.0, commuterId := row.1.commuterId, contactNo := row.1.contactNo,
       discountType := row.1.discountType, preferredRoute := row.1.preferredRoute)
  }

  datatype UpdateOutcome =
    | Updated                    // both rows committed and the form reloaded
    | CommittedButRefreshFailed  // committed, then the re-read raised and "Update failed" is shown
    | Refused                    // an UPDATE failed; both rolled back
    | Aborted                    // BEGIN raised; rolled back
    | Uncaught                   // BEGIN raised with no connection, and so did the rollback

  datatype FeedbackOutcome = Rejected(check: FeedbackCheck) | Submitted | InsertFailed

  class CommuterPanel {
    const db: DatabaseManager
    /** self.user_data: the record the panel was opened with, merged with
      * each re-read after a saved profile. */
    var userData: AuthRecord
    /** self.commuter_id, read once when the panel is made. */
    const commuterId: Option<string>
    /** The preferred-route combo: the routes after its placeholder, and
      * the current index. */
    var routeChoices: seq<RouteRow>
    var routeIndex: nat

    predicate Valid()
      reads this, db
    {
      db.Valid() && routeIndex <= |routeChoices|
    }

    constructor(manager: DatabaseManager, record: AuthRecord, env: Env)
      modifies manager
      requires manager.Valid()
      ensures Valid() && db == manager && userData == record && commuterId == record.commuterId
      ensures db.file == old(manager.file)
    {
      db := manager;
      userData := record;
      commuterId := record.commuterId;
      routeChoices := [];
      routeIndex := 0;
      new;
      LoadCommuterData(env);
    }

    /** The preferred-route part of load_commuter_data: the combo lists the
      * routes get_routes returns (none when it answers None) and selects
      * the stored preferred route. */
    method LoadCommuterData(env: Env)
      modifies this`routeChoices, this`routeIndex, db
      requires Valid()
      ensures Valid()
      ensures db.file == old(db.file) && db.databaseName == old(db.databaseName)
      ensures old(db.conn).Some? ==> db.conn == old(db.conn)
      ensures QueryRuns(old(db.conn), env) ==> db.conn.Some? && routeChoices == RouteRows(db.conn.value.view)
      ensures !QueryRuns(old(db.conn), env) ==> routeChoices == []
      ensures routeIndex == LastMatchIndex(routeChoices, NormalizeStoredRoute(userData.preferredRoute))
    {
      var rows := db.GetRoutes(env);
      routeChoices := rows.GetOr([]);
      routeIndex := SelectRouteIndex(routeChoices, NormalizeStoredRoute(userData.preferredRoute));
    }

    /** The user picks entry k of the combo (0 is the placeholder). */
    method ChooseRoute(k: nat)
      modifies this`routeIndex
      requires Valid() && k <= |routeChoices|
      ensures Valid() && routeIndex == k
    {
      routeIndex := k;
    }

    /** submit_feedback: the checks, then one INSERT committed at once. */
    method SubmitFeedback(ratingText: string, commentText: string, driver: Option<string>,
                          conductor: Option<string>, parseFloat: string -> Option<FloatValue>,
                          affinity: string -> SqlNumber, env: Env) returns (outcome: FeedbackOutcome)
      modifies db
      requires Valid()
      ensures Valid()
      ensures !ValidateFeedback(ratingText, commentText, driver, conductor, parseFloat).Accepted? ==>
        && outcome == Rejected(ValidateFeedback(ratingText, commentText, driver, conductor, parseFloat))
        && db.file == old(db.file) && db.conn == old(db.conn)
      ensures outcome == InsertFailed ==> db.file == old(db.file)
      ensures !outcome.Rejected? ==>
        && (db.conn.None? <==> old(db.conn).None? && env.connect == OpenFails)
        && (db.conn.Some? ==> db.conn == Some(Connection(false, db.file)))
      ensures outcome == Submitted <==>
        && ValidateFeedback(ratingText, commentText, driver, conductor, parseFloat).Accepted?
        && (old(db.conn).Some? || env.connect == Opened) && env.statementOk
        && var v := if old(db.conn).Some? then old(db.conn).value.view else old(db.file);
           Apply(v, InsertFeedback(commuterId, driver, conductor, affinity(Strip(ratingText)), Strip(commentText))).Ok?
      ensures outcome == Submitted ==>
        var v := if old(db.conn).Some? then old(db.conn).value.view else old(db.file);
        db.file == Apply(v, InsertFeedback(commuterId, driver, conductor, affinity(Strip(ratingText)), Strip(commentText))).value
    {
      var check := ValidateFeedback(ratingText, commentText, driver, conductor, parseFloat);
      if !check.Accepted? {
        return Rejected(check);
      }
      var s := InsertFeedback(commuterId, driver, conductor, affinity(check.rating), check.comment);
      assert s == InsertFeedback(commuterId, driver, conductor, affinity(Strip(ratingText)), Strip(commentText));
      ghost var c := if db.conn.Some? then db.conn.value else Connection(false, db.file);
      ghost var before := db.file;
      var ok := db.ExecuteInsertUpdateDelete(s, true, env);
      if ok {
        CommittedStatementReachesFile(c, before, s, env.statementOk);
      }
      outcome := if ok then Submitted else InsertFailed;
    }

    /** The success branch of update_commuter_info: commit, read the row
      * back into user_data and reload the form; a re-read that answers None
      * or no row raises, and the handler's rollback then finds nothing to
      * undo. The re-read runs with `refreshOk`, get_routes inside the
      * reload with `routesOk`. */
    method CommitAndReload(uid: int, connect: ConnectResult, refreshOk: bool, routesOk: bool) returns (reloaded: bool)
      modifies this`userData, this`routeChoices, this`routeIndex, db
      requires Valid() && db.conn.Some?
      ensures Valid()
      ensures db.file == old(db.conn.value.view) && db.conn == Some(Connection(false, db.file))
      ensures reloaded ==>
        var rows := ProfileRows(db.file, uid);
        rows != [] && userData == MergeProfile(old(userData), rows[0])
      ensures !reloaded ==> userData == old(userData)
      ensures !reloaded ==> routeChoices == old(routeChoices) && routeIndex == old(routeIndex)
      ensures reloaded ==> routeChoices == (if routesOk then RouteRows(db.file) else [])
      ensures reloaded ==> routeIndex == LastMatchIndex(routeChoices, NormalizeStoredRoute(userData.preferredRoute))
    {
      var _ := db.CommitTransaction();
      ghost var committed := db.file;
      var reread := db.ExecuteQuery(t => ProfileRows(t, uid), Env(connect, refreshOk));
      if reread.None? || reread.value == [] {
        var _ := db.RollbackTransaction();
        return false;
      }
      assert reread.value == ProfileRows(committed, uid);
      userData := MergeProfile(userData, reread.value[0]);
      LoadCommuterData(Env(connect, routesOk));
      assert db.file == committed;
      reloaded := true;
    }

    /** update_commuter_info: BEGIN, both UPDATEs without commit, then
      * commit when both succeed and roll back otherwise; after a commit the
      * row is read back into user_data and the form reloaded. The first
      * UPDATE runs with `env`, the second with `commutersOk`, the re-read
      * with `refreshOk` and get_routes inside the reload with `routesOk`. */
    method UpdateCommuterInfo(form: ProfileForm, env: Env, commutersOk: bool, refreshOk: bool, routesOk: bool)
      returns (outcome: UpdateOutcome)
      modifies this`userData, this`routeChoices, this`routeIndex, db
      requires Valid()
      ensures Valid()
      ensures var uid := old(userData).user.userId;
              var update := ProfileUpdate(old(db.file), uid, form, ComboData(old(routeChoices), old(routeIndex)));
        && (outcome.Updated? || outcome.CommittedButRefreshFailed? ==> update.Some? && db.file == update.value)
        && (!(outcome.Updated? || outcome.CommittedButRefreshFailed?) ==> db.file == old(db.file))
        && (outcome.Uncaught? <==> old(db.conn).None? && env.connect == OpenFails)
        && (outcome.Aborted? <==> old(db.conn).Some? && old(db.conn).value.inTransaction)
        && (outcome.Refused? <==> !outcome.Uncaught? && !outcome.Aborted? && !(env.statementOk && commutersOk && update.Some?))
        && (!outcome.Uncaught? ==> db.conn == Some(Connection(false, db.file)))
      ensures outcome.Updated? ==>
        var rows := ProfileRows(db.file, old(userData).user.userId);
        rows != [] && userData == MergeProfile(old(userData), rows[0])
      ensures !outcome.Updated? ==> userData == old(userData)
      ensures !outcome.Updated? ==> routeChoices == old(routeChoices) && routeIndex == old(routeIndex)
      ensures outcome.Updated? ==>
        && routeChoices == (if routesOk then RouteRows(db.file) else [])
        && routeIndex == LastMatchIndex(routeChoices, NormalizeStoredRoute(userData.preferredRoute))
    {
      var uid := userData.user.userId;
      var selected := ComboData(routeChoices, routeIndex);
      var s1 := UpdateUserProfile(uid, Strip(form.firstName), Strip(form.lastName), Strip(form.email), form.password);
      var s2 := UpdateCommuterProfile(uid, Strip(form.contactNo), form.discountType, NormalizeSelectedRoute(selected));
      ghost var start := db.file;
      ProfileUpdateIsTwoStatements(start, uid, form, selected);
      TwoUncommittedStatements(start, s1, s2, env.statementOk, commutersOk);
      var begun := db.BeginTransaction(env);
      if begun.Fail? {
        var rolledBack := db.RollbackTransaction();
        if rolledBack.Fail? {
          return Uncaught;
        }
        return Aborted;
      }
      ghost var r1 := RunStatement(Connection(true, start), start, s1, false, env.statementOk);
      var usersOk := db.ExecuteInsertUpdateDelete(s1, false, env);
      assert db.conn == Some(r1.0) && db.file == r1.1 && usersOk == r1.2;
      ghost var r2 := RunStatement(r1.0, r1.1, s2, false, commutersOk);
      var commutersDone := db.ExecuteInsertUpdateDelete(s2, false, Env(env.connect, commutersOk));
      assert db.conn == Some(r2.0) && db.file == r2.1 && commutersDone == r2.2;
      if usersOk && commutersDone {
        var reloaded := CommitAndReload(uid, env.connect, refreshOk, routesOk);
        return if reloaded then Updated else CommittedButRefreshFailed;
      }
      var _ := db.RollbackTransaction();
      return Refused;
    }
  }

  // ------------------------------------------------ the preferred route and login

  /** As written: a commuter who logs in and saves the profile form without
    * touching the route combo loses the stored preferred route, because
    * the login record has no preferred_route and the combo starts on its
    * placeholder. */
  lemma LoginThenSaveDropsRoute(t: Tables, username: string, password: string, form: ProfileForm)
    requires Authenticate(t, username, password).Some?
    requires var rec := Authenticate(t, username, password).value;
      ProfileUpdate(t, rec.user.userId, form,
                    ComboData(RouteRows(t), LastMatchIndex(RouteRows(t), NormalizeStoredRoute(rec.preferredRoute)))).Some?
    ensures var rec := Authenticate(t, username, password).value;
      var after := ProfileUpdate(t, rec.user.userId, form,
                    ComboData(RouteRows(t), LastMatchIndex(RouteRows(t), NormalizeStoredRoute(rec.preferredRoute)))).value;
      forall i :: 0 <= i < |after.commuters| && after.commuters[i].userId == rec.user.userId ==>
        after.commuters[i].preferredRoute == NoneV
  {
  }

  /** Corrected: with preferred_route in the login record the combo starts
    * on the stored route, and saving the form keeps it. */
  lemma LoginWithRouteThenSaveKeepsRoute(t: Tables, username: string, password: string, form: ProfileForm, k: int)
    requires Consistent(t)
    requires AuthenticateWithRoute(t, username, password).Some?
    requires AuthenticateWithRoute(t, username, password).value.preferredRoute == IntV(k) && k != 0
    requires var rec := AuthenticateWithRoute(t, username, password).value;
      ProfileUpdate(t, rec.user.userId, form,
                    ComboData(RouteRows(t), LastMatchIndex(RouteRows(t), NormalizeStoredRoute(rec.preferredRoute)))).Some?
    ensures var rec := AuthenticateWithRoute(t, username, password).value;
      var after := ProfileUpdate(t, rec.user.userId, form,
                    ComboData(RouteRows(t), LastMatchIndex(RouteRows(t), NormalizeStoredRoute(rec.preferredRoute)))).value;
      forall i :: 0 <= i < |after.commuters| && after.commuters[i].userId == rec.user.userId ==>
        after.commuters[i].preferredRoute == IntV(k)
  {
    var rec := AuthenticateWithRoute(t, username, password).value;
    StoredRouteExists(t, rec.user, k);
    assert NormalizeStoredRoute(rec.preferredRoute) == Some(k);
    SaveKeepsListedRoute(t, rec.user.userId, form, k);
  }

  /** Saving the form with the combo on a listed non-zero route stores that
    * route in every commuters row of the user. */
  lemma SaveKeepsListedRoute(t: Tables, uid: int, form: ProfileForm, k: int)
    requires k != 0 && exists j :: 0 <= j < |t.routes| && t.routes[j].routeId as int == k
    requires ProfileUpdate(t, uid, form, ComboData(RouteRows(t), LastMatchIndex(RouteRows(t), Some(k)))).Some?
    ensures var after := ProfileUpdate(t, uid, form, ComboData(RouteRows(t), LastMatchIndex(RouteRows(t), Some(k)))).value;
      forall i :: 0 <= i < |after.commuters| && after.commuters[i].userId == uid ==>
        after.commuters[i].preferredRoute == IntV(k)
  {
    var j :| 0 <= j < |t.routes| && t.routes[j].routeId as int == k;
    assert RouteRows(t)[j].routeId as int == k;
    ComboRoundTrip(RouteRows(t), k);
    UpdateStoresRoute(t, uid, form, ComboData(RouteRows(t), LastMatchIndex(RouteRows(t), Some(k))), k);
  }

  lemma UpdateStoresRoute(t: Tables, uid: int, form: ProfileForm, selected: Value, k: int)
    requires NormalizeSelectedRoute(selected) == Some(k) && ProfileUpdate(t, uid, form, selected).Some?
    ensures var after := ProfileUpdate(t, uid, form, selected).value;
      forall i :: 0 <= i < |after.commuters| && after.commuters[i].userId == uid ==>
        after.commuters[i].preferredRoute == IntV(k)
  {
    var after := ProfileUpdate(t, uid, form, selected).value;
    forall i | 0 <= i < |after.commuters| && after.commuters[i].userId == uid
      ensures after.commuters[i].preferredRoute == IntV(k)
    {
      assert after.commuters[i] == SetCommuter(t.commuters[i], uid, Strip(form.contactNo), form.discountType, Some(k));
    }
  }

  /** In a consistent database a stored preferred route names a route. */
  lemma StoredRouteExists(t: Tables, u: User, k: int)
    requires Consistent(t) && StoredPreferredRoute(t, u) == IntV(k)
    ensures exists j :: 0 <= j < |t.routes| && t.routes[j].routeId as int == k
  {
    var c := First(t.commuters, CommuterOfUser(u.userId));
    assert c.Some? && c.value in t.commuters;
    var i :| 0 <= i < |t.commuters| && t.commuters[i] == c.value;
    assert PreferredRouteOk(t.commuters[i].preferredRoute, t.routes);
    var rt :| rt in t.routes && rt.routeId as int == k;
    var j :| 0 <= j < |t.routes| && t.routes[j] == rt;
  }
}
