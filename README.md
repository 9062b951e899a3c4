# Transport app core, modelled in Dafny

This project models the core of a desktop transport application. The application stores users, commuters, drivers, conductors, vehicles, routes, fares, transactions, feedback and vehicle assignments in one SQLite file. Its windows reach that file through one shared `DatabaseManager`. The model covers four parts:

- **Schema** (`schema.dfy`). The tables of `create_tables` as record datatypes. Their UNIQUE, NOT NULL, CHECK and FOREIGN KEY constraints are written as predicates whose conjunction is `Consistent`. The `route_view` label is modelled too, and so is the effect of running the DDL script on an existing catalog.
- **Store** (`store.dfy`). The effect of every INSERT and UPDATE the core issues, with the constraint checks SQLite applies to it. A proof shows that a statement that succeeds keeps `Consistent`.
- **SELECTs** (`queries.dfy`). The manager's queries as functions of the tables: lookups, ordered listings, the login lookup and the profile re-read.
- **The application's objects.**
  - `database_manager.dfy` holds the `DatabaseManager` class over a connection. A connection is modelled by its view of the tables and whether a transaction is open. It also holds the singleton registry.
  - `fare_calculator.dfy` is the fare calculator, with the widget reads as parameters.
  - `commuter_panel.dfy` is the commuter panel: feedback validation and its INSERT, the two-row profile transaction, and the preferred-route rules.

Generic pieces live in `ordering.dfy` (WHERE filter, first row, stable ORDER BY, projection, join) and `text.dfy` (Python's `str.strip` and `int()` on text, SQLite's `lower()` and BINARY text order). `wrappers.dfy` holds `Option`, `Result` and `Outcome`.

The model follows these semantics:

- **Transactions.** It follows sqlite3's legacy transaction handling:
  - an INSERT or UPDATE opens a transaction implicitly;
  - only `commit()` makes changes reach the file;
  - `rollback()` and `close()` discard what is pending;
  - `BEGIN` inside an open transaction fails.
- **Outside world.** Whatever the outside world answers is a parameter (`Env`): whether `connect` and the PRAGMAs succeed, and whether a statement runs. Python's `float()` is a parameter too. So is SQLite's REAL affinity for a bound text.

## Model

| member | source | states |
|---|---|---|
| Schema.ParseUserType | FINAL-codes/create_database.py:15 | a `user_type` text is admitted exactly when it names one of Admin, Commuter, Driver, Conductor, and it reads back as that value |
| Schema.UserTypeRoundTrip | FINAL-codes/create_database.py:15 | every role's name reads back as that role |
| Schema.EmptyConsistent | FINAL-codes/create_database.py:7-124 | an empty database meets every constraint of the schema |
| Schema.CommuterUserIdNotUnique | FINAL-codes/create_database.py:35-44 | a database holding two commuters rows for the same user meets every constraint, since commuters.user_id has no UNIQUE |
| Schema.RouteLabel | FINAL-codes/create_database.py:118-124 | the label is the origin, then " to ", then the destination, each at its own position |
| Schema.FindSep | FINAL-codes/create_database.py:122 | finds the first position of " to " at or after a start, or reports that there is none |
| Schema.SplitRouteLabelInverts | FINAL-codes/create_database.py:122 | splitting a label at its first " to " gives back origin and destination whenever the origin holds no " to " of its own |
| Schema.RouteLabelAmbiguous | FINAL-codes/create_database.py:122 | two different route pairs can share one label |
| Schema.Guarded | FINAL-codes/create_database.py:7-105 | each object becomes a CREATE ... IF NOT EXISTS, in order |
| Schema.RunDdl | FINAL-codes/create_database.py:5-124 | a script that completes adds exactly its objects to the catalog; a script whose every CREATE has IF NOT EXISTS always completes; a failure is at an unguarded CREATE of an object already present, and keeps what ran before it |
| Schema.RunDdlAppend | FINAL-codes/create_database.py:5-124 | running two scripts in turn is running their concatenation |
| Schema.TargetsGuarded | FINAL-codes/create_database.py:7-105 | a guarded script names exactly its objects |
| Schema.RunGuarded | FINAL-codes/create_database.py:7-105 | a guarded script always completes and adds its objects |
| Schema.RunTableOrder | FINAL-codes/create_database.py:7-117 | create_tables lays down the ten guarded tables, then meets vehicle_assignment and route_view |
| Schema.RunAssignmentAndView | FINAL-codes/create_database.py:106-124 | with no vehicle_assignment yet, its CREATE and the view's succeed |
| Schema.SetupCreatesAll | FINAL-codes/create_database.py:135-145 | while vehicle_assignment is absent, setup_database reports success and all eleven tables and the view exist |
| Schema.RerunFailsAtAssignment | FINAL-codes/create_database.py:135-145 | once vehicle_assignment exists, setup_database reports an error at it on every run |
| Schema.GuardedIdempotent | FINAL-codes/create_database.py:107 | with IF NOT EXISTS on vehicle_assignment too, the script always completes, and a second run changes nothing |
| Store.InsertUserRow | FINAL-codes/create_database.py:8-16 | the INSERT fails exactly when the username or the email is taken; otherwise a row is appended with the next AUTOINCREMENT id and nothing else changes |
| Store.InsertCommuterRow | FINAL-codes/database_manager.py:296-299 | INSERT INTO commuters (user_id) fails exactly when that user does not exist; otherwise it appends a row with NULL commuter_id and discount_type 'None' |
| Store.UpdateUserRows | FINAL-codes/commuter_panel.py:251-261 | the users UPDATE fails exactly when it touches a row and the new email is another user's; otherwise exactly the rows of that user_id receive the four values |
| Store.UpdateCommuterRows | FINAL-codes/commuter_panel.py:267-276 | the commuters UPDATE fails exactly when it touches a row and names a route that does not exist (FOREIGN KEY); otherwise exactly that user's rows receive the three values |
| Store.InsertFeedbackRow | FINAL-codes/create_database.py:94-105 | the feedback INSERT succeeds exactly when the rating is a number in [0, 5] and each given reference exists; it appends exactly one row with the next id, and nothing else changes |
| Store.InsertAssignmentRow | FINAL-codes/create_database.py:107-117 | a NULL vehicle, driver or conductor is a NOT NULL violation; the INSERT succeeds exactly when all three exist; a missing date takes the current time |
| Store.InsertUserKeepsConsistent | FINAL-codes/create_database.py:8-16 | a users INSERT that succeeds keeps every constraint |
| Store.InsertCommuterKeepsConsistent | FINAL-codes/create_database.py:35-44 | a commuters INSERT that succeeds keeps every constraint |
| Store.UpdateUserKeepsConsistent | FINAL-codes/create_database.py:8-16 | the users UPDATE keeps every constraint, including UNIQUE email |
| Store.UpdateCommuterKeepsConsistent | FINAL-codes/create_database.py:35-44 | the commuters UPDATE keeps every constraint, including the preferred route's foreign key |
| Store.InsertFeedbackKeepsConsistent | FINAL-codes/create_database.py:94-105 | a feedback INSERT that succeeds keeps the rating range and the references |
| Store.InsertAssignmentKeepsConsistent | FINAL-codes/create_database.py:107-117 | an assignment INSERT that succeeds keeps its three references |
| Store.ApplyKeepsConsistent | FINAL-codes/create_database.py:7-117 | every statement of the core that succeeds keeps `Consistent` |
| Queries.RouteRows | FINAL-codes/database_manager.py:108-109 | one row per route, in table order, each with that route's id, origin and destination |
| Queries.VehicleIdsByPlate | FINAL-codes/database_manager.py:196-201 | the ids returned are exactly those of vehicles whose plate equals the argument up to ASCII case |
| Queries.PlateLookupIgnoresCase | FINAL-codes/database_manager.py:198 | a plate typed in lower case finds the same vehicles as the plate itself |
| Queries.DriverIdsByLicense | FINAL-codes/database_manager.py:203-208 | exactly the drivers whose license equals the argument |
| Queries.ConductorIdsByLicense | FINAL-codes/database_manager.py:210-215 | exactly the conductors whose license equals the argument |
| Queries.UsersByUsername | FINAL-codes/database_manager.py:87-88 | exactly the users with that username |
| Queries.UserIdsByUsername | FINAL-codes/database_manager.py:238-242 | exactly the ids of users with that username |
| Queries.UsernameFindsAtMostOne | FINAL-codes/create_database.py:10 | under UNIQUE username a username finds at most one user |
| Queries.RoleIdsAtMostOne | FINAL-codes/create_database.py:27-52 | under UNIQUE user_id a user has at most one driver id and at most one conductor id |
| Queries.CommuterIdsOfUser | FINAL-codes/database_manager.py:244-246 | exactly the commuter_id values, NULL included, of that user's commuters rows |
| Queries.DriverIdsOfUser | FINAL-codes/database_manager.py:248-250 | exactly the driver ids of that user |
| Queries.ConductorIdsOfUser | FINAL-codes/database_manager.py:252-254 | exactly the conductor ids of that user |
| Queries.StaffFeedbacks | FINAL-codes/database_manager.py:171-185 | for the driver_id column and for the conductor_id column alike: ascending feedback_id order, and each feedback naming that driver or conductor appears as often as it does in the table, other feedback not at all |
| Queries.CommuterFeedbacks | FINAL-codes/database_manager.py:268-274 | the same by commuter_id, in descending feedback_id order |
| Queries.StaffFeedbacksDetermined | FINAL-codes/database_manager.py:171-185 | under unique feedback ids, any ascending ordering of the matching rows is the driver or conductor listing |
| Queries.CommuterFeedbacksDetermined | FINAL-codes/database_manager.py:268-274 | under unique feedback ids, any descending ordering of the matching rows is the listing |
| Queries.NullCommuterSeesNoFeedback | FINAL-codes/database_manager.py:271 | `commuter_id = NULL` matches nothing, so a commuter whose id is NULL sees an empty list |
| Queries.PlateOf | FINAL-codes/database_manager.py:190 | the LEFT JOIN gives the plate of the named vehicle, or NULL when there is none |
| Queries.ConductorTransactions | FINAL-codes/database_manager.py:187-194 | newest date first; exactly the conductor's transactions each with its vehicle's plate, one row per transaction |
| Queries.CommuterTransactions | FINAL-codes/database_manager.py:161-169 | every row is one of the commuter's transactions with its joined route, plate and conductor, and every such transaction is listed |
| Queries.JoinRoles | FINAL-codes/database_manager.py:308-318 | the record's commuter_id is row [0] of the user's commuter ids, or NULL; driver_id and conductor_id likewise over their queries; contact_no and discount_type come from the user's first commuters row (the one fetchone takes, even when several rows share a NULL commuter_id), license_no from the first drivers row; admin_id is set exactly when the user has an admins row, and is the first such row's id |
| Queries.Authenticate | FINAL-codes/database_manager.py:306-322 | a record comes back exactly when some user has both that username and that password; it carries that user, the role columns of its joined rows, and no preferred route |
| Queries.AuthenticateWithRoute | FINAL-codes/database_manager.py:306-322 | the corrected login lookup: as Authenticate, but the record carries the commuter's stored preferred route |
| Queries.AuthenticateFindsTheUser | FINAL-codes/database_manager.py:306-322 | under UNIQUE username, the record found for a user's credentials is that user's |
| Queries.ProfileRows | FINAL-codes/commuter_panel.py:280-285 | the re-read rows pair the user with each of its commuters rows, and there are none exactly when either is missing |
| Database.RunStatement | FINAL-codes/database_manager.py:49-62 | True exactly when the statement runs and breaks no constraint; with commit=True the transaction ends and the file becomes the new contents, or is kept on failure; with commit=False the file is kept, the transaction stays open, and the connection sees the statement's effect or its earlier view on failure |
| Database.UncommittedStatementKeepsFile | FINAL-codes/database_manager.py:49-62 | with commit=False the file never changes and a transaction stays open |
| Database.CommittedStatementReachesFile | FINAL-codes/database_manager.py:55-57 | a statement that succeeds with commit=True is in the file, together with everything pending before it |
| Database.FailedCommitRollsBack | FINAL-codes/database_manager.py:59-62 | a failure with commit=True rolls back everything pending, not just this statement |
| Database.FailedUncommittedKeepsView | FINAL-codes/database_manager.py:58-62 | a failure with commit=False keeps the earlier pending changes and leaves the transaction open |
| Database.TwoUncommittedStatements | FINAL-codes/database_manager.py:49-62 | two statements in one open transaction leave the file alone; both report success exactly when the second succeeds on the first's result |
| Database.StatementFlag | FINAL-codes/database_manager.py:49-62 | True exactly when the statement ran and broke no constraint |
| Database.DatabaseManager.constructor | FINAL-codes/database_manager.py:13-15 | a new manager has no connection |
| Database.DatabaseManager.Init | FINAL-codes/database_manager.py:13-15 | `__init__` on the shared instance drops the connection and keeps the file |
| Database.DatabaseManager.Connect | FINAL-codes/database_manager.py:17-26 | True exactly when opening and both PRAGMAs succeed; a failing PRAGMA still leaves the new connection in place |
| Database.DatabaseManager.Close | FINAL-codes/database_manager.py:28-31 | afterwards there is no connection, whatever there was before, and the file is unchanged |
| Database.DatabaseManager.EnsureConnection | FINAL-codes/database_manager.py:33-36 | connects only when there is no connection; True means a connection exists |
| Database.DatabaseManager.ExecuteQuery | FINAL-codes/database_manager.py:38-47 | None exactly when no connection can be made or the statement fails, and otherwise every row the query selects from what the connection sees |
| Database.DatabaseManager.ExecuteInsertUpdateDelete | FINAL-codes/database_manager.py:49-62 | False with no connection; otherwise the new connection, file and flag are those of RunStatement |
| Database.DatabaseManager.BeginTransaction | FINAL-codes/database_manager.py:64-66 | opens a transaction on what the file holds; raises when there is still no connection, or a transaction is already open |
| Database.DatabaseManager.CommitTransaction | FINAL-codes/database_manager.py:68-74 | the connection's view becomes the file; raises with no connection |
| Database.DatabaseManager.RollbackTransaction | FINAL-codes/database_manager.py:76-82 | the connection sees the file again; raises with no connection |
| Database.DatabaseManager.GetVehicleIdByPlate | FINAL-codes/database_manager.py:196-201 | row [0] of the plate query on the stripped argument, or None when the query does not run |
| Database.DatabaseManager.GetDriverIdByLicense | FINAL-codes/database_manager.py:203-208 | row [0] of the license query on the stripped argument, or None |
| Database.DatabaseManager.GetConductorIdByLicense | FINAL-codes/database_manager.py:210-215 | row [0] of the license query on the stripped argument, or None |
| Database.DatabaseManager.GetUserIdByUsername | FINAL-codes/database_manager.py:238-242 | row [0] of the username query, or None |
| Database.DatabaseManager.GetCommuterIdByUserId | FINAL-codes/database_manager.py:244-246 | row [0]'s commuter_id, which may itself be NULL, or None |
| Database.DatabaseManager.GetDriverIdByUserId | FINAL-codes/database_manager.py:248-250 | row [0] of the user's driver ids, or None |
| Database.DatabaseManager.GetConductorIdByUserId | FINAL-codes/database_manager.py:252-254 | row [0] of the user's conductor ids, or None |
| Database.DatabaseManager.GetRoutes | FINAL-codes/database_manager.py:108-109 | the route rows when the query runs, None otherwise |
| Database.DatabaseManager.GetDriverFeedbacks | FINAL-codes/database_manager.py:171-177 | the driver's feedback listing when the query runs |
| Database.DatabaseManager.GetConductorFeedbacks | FINAL-codes/database_manager.py:179-185 | the conductor's feedback listing when the query runs |
| Database.DatabaseManager.GetCommuterFeedbacks | FINAL-codes/database_manager.py:268-274 | the commuter's feedback listing when the query runs |
| Database.DatabaseManager.GetConductorTransactions | FINAL-codes/database_manager.py:187-194 | the conductor's transaction listing when the query runs |
| Database.DatabaseManager.GetCommuterTransactions | FINAL-codes/database_manager.py:161-169 | the commuter's transaction listing when the query runs |
| Database.DatabaseManager.InsertCommuter | FINAL-codes/database_manager.py:288-304 | no connection raises; a taken username or email raises "Username already exists" and leaves the transaction open with nothing committed; otherwise one users row typed Commuter and one commuters row with its new id are committed, and that id is returned |
| Database.DatabaseManager.AuthenticateUser | FINAL-codes/database_manager.py:306-322 | no connection raises; otherwise the record of Authenticate on what the connection sees |
| Database.ManagerRegistry.Construct | FINAL-codes/database_manager.py:8-15 | the first construction makes the instance; every later one returns that same object with its connection reset and its file kept |
| Database.TwoConstructions | FINAL-codes/database_manager.py:8-15 | two constructions give one object, and the second forgets the connection the first one made |
| FareCalculator.PassengerTypeOf | FINAL-codes/sampledata.py:85-94 | the first checked button in the order Regular, Student, Senior, PWD, and Regular when none is checked |
| FareCalculator.FareRows | FINAL-codes/sampledata.py:105-110 | the join's rows are exactly a route between the two places paired with one of its fares; a fare with NULL route_id joins nothing |
| FareCalculator.CalculateFare | FINAL-codes/sampledata.py:82-137 | an empty place is an input error; the same place costs 15.00 (Regular) or 12.00 at distance 0; otherwise row [0] gives the distance, and price_fare for Regular or discount_fare for the rest; no row is "Route not found"; a failed query is "Route not found" through the manager and an uncaught error without one; a NULL discount_fare makes the display raise |
| FareCalculator.EmptyCheckedFirst | FINAL-codes/sampledata.py:95-103 | two empty places are an input error, not a same-place fare |
| FareCalculator.SamePlaceNeedsNoLookup | FINAL-codes/sampledata.py:98-103 | the same-place fare is independent of the path and of the tables, at distance 0 |
| FareCalculator.PathsAgree | FINAL-codes/sampledata.py:104-133 | when the query succeeds, the manager path and the direct path give the same result |
| FareCalculator.QuoteFromTables | FINAL-codes/sampledata.py:104-137 | a quote between different places is the distance of a route between them and a fare of that route, by passenger type |
| FareCalculator.RouteNotFoundIffNoFare | FINAL-codes/sampledata.py:111-118 | "Route not found" exactly when no route between the places has a fare row |
| FareCalculator.FetchOrigins | FINAL-codes/sampledata.py:58-68 | ascending without repeats, holding exactly the routes' origins; [] through the manager when the query fails, and an uncaught error on the direct connection |
| FareCalculator.FetchDestinations | FINAL-codes/sampledata.py:70-80 | the same for destinations |
| FareCalculator.OriginsOnce | FINAL-codes/sampledata.py:60 | no origin is listed twice |
| FareCalculator.OriginsDetermined | FINAL-codes/sampledata.py:60 | the origins list is the only ascending list without repeats of exactly those values |
| FareCalculator.DestinationsDetermined | FINAL-codes/sampledata.py:72 | the same for destinations |
| CommuterPanel.TruncateTowardZero | FINAL-codes/commuter_panel.py:264 | `int()` of a float drops the fraction toward zero |
| CommuterPanel.PyInt | FINAL-codes/commuter_panel.py:213-217 | None fails, an int is itself, a float is truncated toward zero, a text is read as Python reads an integer literal |
| CommuterPanel.NormalizeSelectedRoute | FINAL-codes/commuter_panel.py:262-266 | a falsy value gives None; otherwise the value's `int()`, or None when that fails |
| CommuterPanel.NormalizeStoredRoute | FINAL-codes/commuter_panel.py:212-217 | None gives None; anything else gives its `int()`, or None when that fails |
| CommuterPanel.SelectedRouteFromText | FINAL-codes/commuter_panel.py:262-266 | a non-zero id written as decimal text reads back as that id |
| CommuterPanel.NormalizationsAgreeOnTruthy | FINAL-codes/commuter_panel.py:262-266 | the two rules differ only on falsy values |
| CommuterPanel.LastMatchIndex | FINAL-codes/commuter_panel.py:218-226 | 0 exactly when no route id equals the preferred route; otherwise one past a matching route, with no match after it |
| CommuterPanel.SelectRouteIndex | FINAL-codes/commuter_panel.py:218-226 | the loop computes LastMatchIndex |
| CommuterPanel.ComboData | FINAL-codes/commuter_panel.py:211-223 | the placeholder's data is None and entry i's is the i-th route id |
| CommuterPanel.ComboRoundTrip | FINAL-codes/commuter_panel.py:212-226 | selecting a stored non-zero route that is listed and reading the combo back gives that route |
| CommuterPanel.ValidateFeedback | FINAL-codes/commuter_panel.py:320-339 | an empty rating or comment after stripping is rejected first; then a rating float() refuses; then one below 0 or above 5 (NaN is neither); then a missing driver and conductor; otherwise the stripped texts are accepted |
| CommuterPanel.BoundsAccepted | FINAL-codes/commuter_panel.py:329-333 | ratings 0 and 5 themselves pass |
| CommuterPanel.EitherSelectionSuffices | FINAL-codes/commuter_panel.py:337-339 | a driver alone and a conductor alone are treated alike, and either turns a missing selection into acceptance |
| CommuterPanel.NanPassesFormButNotStore | FINAL-codes/commuter_panel.py:329-343 | "nan" passes the form, but the rating reaches the REAL column as text and the CHECK refuses the row |
| CommuterPanel.ProfileUpdate | FINAL-codes/commuter_panel.py:250-276 | both UPDATEs in turn: None exactly when the email is another user's or the chosen route does not exist; otherwise exactly the user's rows get the stripped names and email and the password, its commuters rows get contact, discount type and route, and nothing else changes |
| CommuterPanel.ProfileUpdateIsTwoStatements | FINAL-codes/commuter_panel.py:251-276 | the profile update is the users statement followed by the commuters statement |
| CommuterPanel.ProfileUpdateKeepsConsistent | FINAL-codes/commuter_panel.py:250-276 | a profile update that succeeds keeps every constraint |
| CommuterPanel.CommuterPanel.LoadCommuterData | FINAL-codes/commuter_panel.py:209-226 | the combo lists the routes get_routes returns, or none, and its index is LastMatchIndex of the stored route |
| CommuterPanel.CommuterPanel.ChooseRoute | FINAL-codes/commuter_panel.py:226 | the combo's index becomes the one chosen |
| CommuterPanel.CommuterPanel.SubmitFeedback | FINAL-codes/commuter_panel.py:320-343 | a rejected form changes nothing; otherwise one committed INSERT of (commuter_id, driver, conductor, rating text, comment), which reaches the file exactly when the connection runs it and the store admits it; after Submitted or InsertFailed the connection, when there is one, has no open transaction and its view is the file, so a failed insert also discards work left pending |
| CommuterPanel.CommuterPanel.CommitAndReload | FINAL-codes/commuter_panel.py:277-288 | commits what the connection holds; on a re-read row, user_data is merged with it and the combo lists the committed routes (none when get_routes fails) with the re-read preferred route selected; when the re-read fails, user_data and the combo stay as they were |
| CommuterPanel.CommuterPanel.UpdateCommuterInfo | FINAL-codes/commuter_panel.py:247-294 | the file ends as ProfileUpdate of its old contents when both UPDATEs succeed, and unchanged otherwise; a BEGIN inside an open transaction aborts; with no connection possible the handler's own rollback raises; on Updated the combo lists the committed routes and selects the re-read preferred route, and on every other outcome the combo is unchanged |
| CommuterPanel.LoginThenSaveDropsRoute | FINAL-codes/database_manager.py:306-322 | as written, logging in and saving the profile with the combo untouched sets the commuter's preferred route to NULL |
| CommuterPanel.LoginWithRouteThenSaveKeepsRoute | FINAL-codes/commuter_panel.py:212-226 | with the route in the login record, the combo starts on it and saving keeps it |
| CommuterPanel.SaveKeepsListedRoute | FINAL-codes/commuter_panel.py:218-276 | with the combo on a listed non-zero route, a saved profile stores that route in each of the user's commuters rows |
| CommuterPanel.UpdateStoresRoute | FINAL-codes/commuter_panel.py:262-276 | a saved profile whose selected route normalises to k stores k in each of the user's commuters rows |
| CommuterPanel.StoredRouteExists | FINAL-codes/create_database.py:42 | in a consistent database a stored preferred route is a listed route |
| Text.Strip | FINAL-codes/commuter_panel.py:324-325 | `str.strip()`: a slice of the input with no whitespace at either end, keeping everything between |
| Text.StripIdempotent | FINAL-codes/commuter_panel.py:324-325 | stripping twice is stripping once |
| Text.SqlLower | FINAL-codes/database_manager.py:198 | SQLite's lower() folds ASCII A-Z only, position by position |
| Text.SqlLowerIdempotent | FINAL-codes/database_manager.py:198 | lowering twice is lowering once |
| Text.StrLessTransitive | FINAL-codes/sampledata.py:60 | BINARY text order is transitive |
| Text.StrLessTotal | FINAL-codes/sampledata.py:60 | any two different texts are ordered one way |
| Text.SortDistinct | FINAL-codes/sampledata.py:60 | SELECT DISTINCT ... ORDER BY: strictly ascending, with exactly the input's values |
| Text.AscendingUnique | FINAL-codes/sampledata.py:60 | two strictly ascending lists with the same values are equal |
| Text.ParseInt | FINAL-codes/commuter_panel.py:215 | `int()` on text: surrounding whitespace, an optional sign, then decimal digits with single underscores between them; a success needs a non-empty stripped text, and a negative result needs a leading '-' |
| Text.ParseIntRoundTrip | FINAL-codes/commuter_panel.py:215 | every integer's decimal text reads back as that integer |
| Text.ParseIntRefusesNonDigit | FINAL-codes/commuter_panel.py:215-217 | after the first position, a character other than a digit or underscore makes `int()` fail |
| Text.ParseIntRefusesLooseUnderscore | FINAL-codes/commuter_panel.py:215-217 | an underscore at either end of the digits makes `int()` fail |
| Ordering.Filter | FINAL-codes/database_manager.py:174 | WHERE keeps exactly the rows that match, each as often as in the table |
| Ordering.First | FINAL-codes/database_manager.py:200 | row [0]: None exactly when nothing matches, otherwise a matching row |
| Ordering.FirstIsFilterHead | FINAL-codes/database_manager.py:321 | fetchone on a filtered result is row [0] of the WHERE filter, and None exactly when the filter is empty |
| Ordering.SortBy | FINAL-codes/database_manager.py:175 | ORDER BY: sorted by the key and a permutation of the input |
| Ordering.SortedByUniqueKey | FINAL-codes/database_manager.py:175 | two orderings of the same rows by a key no two rows share are equal |
| Ordering.FilterAtMostOne | FINAL-codes/create_database.py:10 | a WHERE that no two rows both meet keeps at most one row |
| Ordering.Cross | FINAL-codes/commuter_panel.py:282 | the join has exactly the pairs of a row of each side |

## Left out

- Everything PyQt: labels, tables, message boxes, window switching, and the feedback and transaction tables the panels show after a query.
- The SQL engine: joins are taken with the routes (or users) table outermost, and rows with equal ORDER BY keys keep table order. SQLite promises neither. The query planner, type affinity beyond the rating column, and the WAL journal are not modelled.
- licenses are compared as text, although license_no has INTEGER affinity and SQLite would convert numeric texts.
- The `datetime('now')` column of two feedback listings is not modelled, because it is the clock rather than stored data.
- Env: one flag says whether a statement runs. UpdateCommuterInfo takes one flag per UPDATE, one for the re-read and one for get_routes in the reload; the reload's feedback and driver/conductor listings are not modelled. InsertCommuter models a non-constraint failure only at its first statement.
- InsertCommuter: a raised error leaves the implicitly begun transaction open, and the model keeps that; whether SQLite had begun it before the failing statement is not distinguished.
- Commit and rollback failing inside SQLite (disk full, I/O errors) are not modelled; only the missing connection makes them raise.
- Text.ParseInt: accepts ASCII digits only; Python's `int()` also takes other Unicode decimal digits.
- CommuterPanel.FloatValue: float() is a parameter. The CHECK's view of a rating text (SQLite's REAL affinity) is a parameter too.
- The fare display's `:.2f` formatting is not modelled, apart from its failure on a NULL discount fare.
- create_route_view is not modelled. It defines a second route_view with another column name, and no code calls it.
- The admin panel's create_* helpers are not modelled, because AdminPanel never defines the connection and methods they use.
- CLEARTABLES.py is not modelled; it is a drop script.
- The routes_fares module that commuter_panel.py imports is not part of this model; the calculator modelled is the copy in sampledata.py.
- get_driver_data and get_conductor_data are not modelled. They are unordered joins with no rule to model.
- Listings the core does not name are not modelled: get_users, get_fares and similar SELECT * helpers.
- Passwords are stored and compared as plain text, as the source does; there is no hashing to model.

## Findings

| source | as written | input that shows it | evidently intended | confidence | as-written member | corrected member |
|---|---|---|---|---|---|---|
| FINAL-codes/create_database.py:107 | CREATE TABLE vehicle_assignment has no IF NOT EXISTS, unlike every other statement | run setup_database on a file where it already ran: it reports "table vehicle_assignment already exists" | the script can be re-run and leaves every object in place | high (not executed) | Schema.RerunFailsAtAssignment | Schema.GuardedIdempotent |
| FINAL-codes/database_manager.py:306-322 | the login record omits commuters.preferred_route, so the profile form opens on the placeholder | a commuter with a stored preferred route logs in and presses Update without touching the combo: the route becomes NULL | the form shows the stored route and saving keeps it | high (not executed) | CommuterPanel.LoginThenSaveDropsRoute | CommuterPanel.LoginWithRouteThenSaveKeepsRoute |
