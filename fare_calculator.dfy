/**
 * FareCalculatorApp: the fare for a trip between two places, looked up in
 * routes joined to fares, with a flat fare when origin and destination are
 * the same place. The widgets become parameters: the two combo texts, the
 * four radio buttons, and the rows the SELECT returns.
 */
module FareCalculator {
  import opened Wrappers
  import opened Schema
  import opened Text
  import opened Ordering

  datatype PassengerType = Regular | Student | Senior | Pwd

  /** The first checked radio button, in the order Regular, Student,
    * Senior, PWD; Regular when none is checked. */
  function PassengerTypeOf(regular: bool, student: bool, senior: bool, pwd: bool): (r: PassengerType)
    ensures regular ==> r == Regular
    ensures !(regular || student || senior || pwd) ==> r == Regular
    ensures r == Student <==> !regular && student
    ensures r == Senior <==> !regular && !student && senior
    ensures r == Pwd <==> !regular && !student && !senior && pwd
  {
    if regular then Regular
    else if student then Student
    else if senior then Senior
    else if pwd then Pwd
    else Regular
  }

  /** A row of SELECT r.route_id, r.distance, f.price_fare, f.discount_fare. */
  datatype FareRow = FareRow(routeId: nat, distance: real, priceFare: real, discountFare: Option<real>)

  function JoinRow(rt: Route, f: Fare): FareRow {
    FareRow(rt.routeId, rt.distance, f.priceFare, f.discountFare)
  }

  predicate RouteMatches(rt: Route, origin: string, destination: string) {
    rt.origin == origin && rt.destination == destination
  }

  /** Whether the join has the row of route rt and fare f. */
  predicate Joined(rt: Route, f: Fare, origin: string, destination: string) {
    RouteMatches(rt, origin, destination) && f.routeId == Some(rt.routeId)
  }

  /** The fares of one route, as joined rows; a fare whose route_id is NULL
    * joins no route. */
  function FaresOfRoute(rt: Route, fares: seq<Fare>): (r: seq<FareRow>)
    ensures forall x :: x in r <==> exists f :: f in fares && f.routeId == Some(rt.routeId) && x == JoinRow(rt, f)
  {
    Project(Filter(fares, (f: Fare) => f.routeId == Some(rt.routeId)), (f: Fare) => JoinRow(rt, f))
  }

  function JoinFrom(routes: seq<Route>, fares: seq<Fare>, origin: string, destination: string): (r: seq<FareRow>)
    ensures forall x :: x in r <==>
      exists rt, f :: rt in routes && f in fares && Joined(rt, f, origin, destination) && x == JoinRow(rt, f)
  {
    if routes == [] then []
    else
      var head := if RouteMatches(routes[0], origin, destination) then FaresOfRoute(routes[0], fares) else [];
      var rest := JoinFrom(routes[1..], fares, origin, destination);
      assert forall rt :: rt in routes <==> rt == routes[0] || rt in routes[1..];
      head + rest
  }

  /** routes JOIN fares ON r.route_id = f.route_id WHERE r.origin = ? AND
    * r.destination = ?, routes outermost. */
  function FareRows(t: Tables, origin: string, destination: string): (r: seq<FareRow>)
    ensures forall x :: x in r <==>
      exists rt, f :: rt in t.routes && f in t.fares && Joined(rt, f, origin, destination) && x == JoinRow(rt, f)
  {
    JoinFrom(t.routes, t.fares, origin, destination)
  }

  /** With a db_manager the query goes through execute_query, which answers
    * None on failure; without one a connection of its own is opened and
    * an error propagates out of the handler. */
  datatype LookupPath = ThroughManager | DirectConnection

  datatype Crash =
    | QueryFailed     // the direct path's sqlite3 error
    | NoDiscountFare  // formatting a NULL discount_fare with :.2f

  datatype FareOutcome =
    | InputError
    | RouteNotFound
    | Quote(distance: real, fare: real, passenger: PassengerType)
    | Crashed(reason: Crash)

  const RegularSamePlaceFare: real := 15.00
  const DiscountedSamePlaceFare: real := 12.00

  function SamePlaceFare(p: PassengerType): real {
    if p == Regular then RegularSamePlaceFare else DiscountedSamePlaceFare
  }

  /** calculate_fare. `rows` is what the SELECT returns, None when it fails;
    * it is consulted only when the two places differ. */
  function CalculateFare(origin: string, destination: string, passenger: PassengerType,
                         path: LookupPath, rows: Option<seq<FareRow>>): (r: FareOutcome)
    ensures r == InputError <==> origin == [] || destination == []
    ensures origin != [] && origin == destination ==> r == Quote(0.0, SamePlaceFare(passenger), passenger)
    ensures r == RouteNotFound <==>
      (origin != [] && destination != [] && origin != destination
       && (rows == Some([]) || (rows.None? && path.ThroughManager?)))
    ensures r == Crashed(QueryFailed) <==>
      origin != [] && destination != [] && origin != destination && rows.None? && path.DirectConnection?
    ensures origin != destination && (r.Quote? || r == Crashed(NoDiscountFare)) ==> rows.Some? && rows.value != []
    ensures origin != destination && r.Quote? ==>
      && r.distance == rows.value[0].distance && r.passenger == passenger
      && (passenger == Regular ==> r.fare == rows.value[0].priceFare)
      && (passenger != Regular ==> rows.value[0].discountFare == Some(r.fare))
    ensures r == Crashed(NoDiscountFare) ==> passenger != Regular && rows.value[0].discountFare.None?
  {
    if origin == [] || destination == [] then InputError
    else if origin == destination then Quote(0.0, SamePlaceFare(passenger), passenger)
    else if rows.None? then (if path.ThroughManager? then RouteNotFound else Crashed(QueryFailed))
    else if rows.value == [] then RouteNotFound
    else
      var first := rows.value[0];
      if passenger == Regular then Quote(first.distance, first.priceFare, passenger)
      else if first.discountFare.None? then Crashed(NoDiscountFare)
      else Quote(first.distance, first.discountFare.value, passenger)
  }

  /** An empty place is an input error even when the other one is empty
    * too: the emptiness check comes before the same-place rule. */
  lemma EmptyCheckedFirst(passenger: PassengerType, path: LookupPath, rows: Option<seq<FareRow>>)
    ensures CalculateFare("", "", passenger, path, rows) == InputError
  {
  }

  /** The same-place fare depends on neither the path nor the tables. */
  lemma SamePlaceNeedsNoLookup(place: string, passenger: PassengerType, path1: LookupPath, path2: LookupPath,
                               rows1: Option<seq<FareRow>>, rows2: Option<seq<FareRow>>)
    requires place != []
    ensures CalculateFare(place, place, passenger, path1, rows1) == CalculateFare(place, place, passenger, path2, rows2)
    ensures CalculateFare(place, place, passenger, path1, rows1).distance == 0.0
  {
  }

  /** When the query succeeds the two paths give the same answer. */
  lemma PathsAgree(origin: string, destination: string, passenger: PassengerType, rows: seq<FareRow>)
    ensures CalculateFare(origin, destination, passenger, ThroughManager, Some(rows))
         == CalculateFare(origin, destination, passenger, DirectConnection, Some(rows))
  {
  }

  /** A quote for two different places is the distance of a route between
    * them and a fare of that route: price_fare for Regular, discount_fare
    * for everyone else. */
  lemma QuoteFromTables(t: Tables, origin: string, destination: string, passenger: PassengerType, path: LookupPath)
    requires origin != destination
    requires CalculateFare(origin, destination, passenger, path, Some(FareRows(t, origin, destination))).Quote?
    ensures var q := CalculateFare(origin, destination, passenger, path, Some(FareRows(t, origin, destination)));
      exists rt, f :: rt in t.routes && f in t.fares && Joined(rt, f, origin, destination)
        && q.distance == rt.distance
        && (passenger == Regular ==> q.fare == f.priceFare)
        && (passenger != Regular ==> f.discountFare == Some(q.fare))
  {
    var rows := FareRows(t, origin, destination);
    assert rows[0] in rows;
  }

  /** With a query that succeeds, "Route not found" means no route between
    * the two places has a fare, which includes a route with no fare row. */
  lemma RouteNotFoundIffNoFare(t: Tables, origin: string, destination: string, passenger: PassengerType, path: LookupPath)
    requires origin != [] && destination != [] && origin != destination
    ensures CalculateFare(origin, destination, passenger, path, Some(FareRows(t, origin, destination))) == RouteNotFound
        <==> !exists rt, f :: rt in t.routes && f in t.fares && Joined(rt, f, origin, destination)
  {
    var rows := FareRows(t, origin, destination);
    if exists rt, f :: rt in t.routes && f in t.fares && Joined(rt, f, origin, destination) {
      var rt, f :| rt in t.routes && f in t.fares && Joined(rt, f, origin, destination);
      assert JoinRow(rt, f) in rows;
    } else if rows != [] {
      assert rows[0] in rows;
    }
  }

  // ------------------------------------------------------- the two combos

  /** SELECT DISTINCT origin FROM routes ORDER BY origin, through the
    * chosen path: None when the direct path's query raises, and with a
    * manager [] when execute_query answers None. */
  function FetchOrigins(t: Tables, path: LookupPath, queryOk: bool): (r: Option<seq<string>>)
    ensures r.None? <==> path.DirectConnection? && !queryOk
    ensures path.ThroughManager? && !queryOk ==> r == Some([])
    ensures queryOk ==> r.Some? && StrictlyAscending(r.value)
    ensures queryOk ==> forall y :: y in r.value <==> exists rt :: rt in t.routes && rt.origin == y
  {
    if queryOk then Some(SortDistinct(Project(t.routes, (rt: Route) => rt.origin)))
    else if path.ThroughManager? then Some([])
    else None
  }

  /** SELECT DISTINCT destination FROM routes ORDER BY destination. */
  function FetchDestinations(t: Tables, path: LookupPath, queryOk: bool): (r: Option<seq<string>>)
    ensures r.None? <==> path.DirectConnection? && !queryOk
    ensures path.ThroughManager? && !queryOk ==> r == Some([])
    ensures queryOk ==> r.Some? && StrictlyAscending(r.value)
    ensures queryOk ==> forall y :: y in r.value <==> exists rt :: rt in t.routes && rt.destination == y
  {
    if queryOk then Some(SortDistinct(Project(t.routes, (rt: Route) => rt.destination)))
    else if path.ThroughManager? then Some([])
    else None
  }

  /** Each origin is offered once. */
  lemma OriginsOnce(t: Tables, path: LookupPath, i: nat, j: nat)
    requires FetchOrigins(t, path, true).Some?
    requires i < j < |FetchOrigins(t, path, true).value|
    ensures FetchOrigins(t, path, true).value[i] != FetchOrigins(t, path, true).value[j]
  {
    StrLessIrreflexive(FetchOrigins(t, path, true).value[i]);
  }

  /** The combo's list is the only ascending list without repeats that
    * holds exactly the origins of the routes. */
  lemma OriginsDetermined(t: Tables, path: LookupPath, s: seq<string>)
    requires StrictlyAscending(s)
    requires forall y :: y in s <==> exists rt :: rt in t.routes && rt.origin == y
    ensures FetchOrigins(t, path, true) == Some(s)
  {
    AscendingUnique(FetchOrigins(t, path, true).value, s);
  }

  /** The same for destinations. */
  lemma DestinationsDetermined(t: Tables, path: LookupPath, s: seq<string>)
    requires StrictlyAscending(s)
    requires forall y :: y in s <==> exists rt :: rt in t.routes && rt.destination == y
    ensures FetchDestinations(t, path, true) == Some(s)
  {
    AscendingUnique(FetchDestinations(t, path, true).value, s);
  }
}
