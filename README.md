# Campus ride backend — a Dafny model

This project models the rules of a campus transport backend in which
students request rides and drivers take them. The model covers three
route files.

- **Ride lifecycle** (`src/routes/rides.routes.js`): a student requests a
  ride (PENDING), a driver accepts it (ACCEPTED, driver assigned) or rejects
  it (still PENDING, no driver), and the assigned driver or an admin
  overrides its status (IN_PROGRESS, COMPLETED or CANCELLED). The rides
  table is a `map<int, Ride>` held by the class `Rides.RideStore`. Each
  handler is a method that checks and then writes in place. Each method is
  proved equal to a pure outcome function (`RequestRide`, `AcceptRide`,
  `RejectRide`, `UpdateStatus`) and to the write `Commit`. The lemmas state
  the check order of accept, reject and the override, that a refusal changes nothing, and that every handler
  keeps the table invariant `StoreInv`. That invariant says a PENDING ride
  has no driver and an ACCEPTED ride has one.
- **Driver queries** (`src/routes/driver.routes.js`): these are pure
  functions over the rides as a `seq<Ride>`. They are the list of open
  rides oldest first, the driver's current ride, and the earnings and
  distance rollups for today, this week and all time.
- **Registration and login** (`src/routes/auth.routes.js`): the class
  `Auth.AccountStore` holds the student, driver and admin tables, each
  keyed by email. `Register` runs its checks in order: fields, role, email
  unique across the three tables, then the plate format for drivers only.
  It then inserts into the table its role names. `Login` searches students,
  then drivers, then admins.

HTTP refusals become `Common.Error`:
- 400 is `InvalidInput(reason)`, or `NotAvailable` when the ride is not PENDING.
- 403 is `Forbidden`.
- 404 is `NotFound`.
- 401 is `InvalidCredentials`.

JavaScript truthiness of body fields is modelled explicitly. A string field
is an `Option<string>` that counts as given when present and non-empty. A
`rideId` counts as given when present and not 0.

What the code does not do, and the model therefore does not do either:
- Accept is a plain read-then-write. It has no `Conflict` failure for two
  drivers taking the same ride.
- Reject applies only to PENDING rides. It does not release an ACCEPTED ride.
- The status override does not look at the current status. It moves a
  ride from any of the five statuses to IN_PROGRESS, COMPLETED or
  CANCELLED.
- These files have no cancel operation, no weekly ride quota and no
  paginated history.

## Model

| member | source | states |
|---|---|---|
| Rides.Commit | src/routes/rides.routes.js:62-68 | a handler's write replaces only the ride it answers with, under that ride's id; a refusal leaves the table as it was |
| Rides.ParseSettable | src/routes/rides.routes.js:162-165 | IN_PROGRESS, COMPLETED and CANCELLED each yield their own status, and no other string yields a status |
| Rides.RequestRide | src/routes/rides.routes.js:10-30 | a non-STUDENT is refused with Forbidden; the request succeeds exactly when a STUDENT gives both locations, and then yields a PENDING ride with no driver, owned by the caller, under the given id and time |
| Rides.AcceptRide | src/routes/rides.routes.js:44-68 | a non-DRIVER is refused with Forbidden; accept succeeds exactly when a rideId is given and names a stored PENDING ride, and then yields that ride ACCEPTED with the caller as driver, nothing else changed |
| Rides.RejectRide | src/routes/rides.routes.js:82-107 | a non-DRIVER is refused with Forbidden; reject succeeds exactly when a rideId is given and names a stored PENDING ride, and then yields that ride with its driver cleared, still PENDING |
| Rides.UpdateStatusAsWritten | src/routes/rides.routes.js:160-186 | as written, the override succeeds exactly when the target is settable, the ride exists and the caller's id equals the ride's driverId or the caller is an ADMIN; it then yields the ride with only the requested status changed; an unknown ride with a settable target gives NotFound, before authorisation; it fails only with InvalidStatus, NotFound or Forbidden |
| Rides.MayOverride | src/routes/rides.routes.js:176-181 | the corrected authorisation never admits a STUDENT, and admits a DRIVER exactly when the ride's driverId is that driver's id |
| Rides.UpdateStatus | src/routes/rides.routes.js:160-186 | the corrected override succeeds exactly when the target is settable, the ride exists and MayOverride holds; it then yields the ride with only the requested status changed; an unknown ride with a settable target gives NotFound, before authorisation |
| Rides.RequestNeedsLocations | src/routes/rides.routes.js:16-21 | a student's request succeeds exactly when both pickup and destination are given; otherwise it fails with MissingLocations and the table is unchanged |
| Rides.RequestAddsOnePendingRide | src/routes/rides.routes.js:23-30 | a successful request adds exactly one ride under a fresh id (one more key), PENDING, owned by the caller, with no driver, and leaves every existing ride unchanged |
| Rides.AcceptCheckOrder | src/routes/rides.routes.js:50-60 | accept rejects a missing rideId before any lookup, then an unknown id with NotFound, then a non-PENDING ride with NotAvailable; every refusal leaves the table unchanged |
| Rides.AcceptAssignsCaller | src/routes/rides.routes.js:62-68 | accept succeeds exactly on a PENDING ride; afterwards that ride is ACCEPTED with the caller as driver, its other fields and all other rides unchanged |
| Rides.RejectCheckOrder | src/routes/rides.routes.js:85-98 | reject rejects a missing rideId before any lookup, then an unknown id with NotFound, then a non-PENDING ride with NotAvailable; every refusal leaves the table unchanged |
| Rides.RejectKeepsPending | src/routes/rides.routes.js:91-107 | reject succeeds exactly on a PENDING ride and leaves it PENDING with no driver; refusals change nothing |
| Rides.RejectIdempotent | src/routes/rides.routes.js:100-107 | rejecting a second time leaves the table as one reject left it |
| Rides.RejectWritesNoChange | src/routes/rides.routes.js:100-107 | in a table kept by the handlers, a reject writes back the very record it read, so the table is unchanged |
| Rides.StatusCheckedBeforeLookup | src/routes/rides.routes.js:162-174 | an invalid target status fails with InvalidStatus before the lookup, so also for an unknown ride id |
| Rides.OverrideWritesOnlyStatus | src/routes/rides.routes.js:176-186 | an unauthorised caller gets Forbidden and nothing changes; otherwise only the status field of that ride is overwritten |
| Rides.OverrideIgnoresPriorStatus | src/routes/rides.routes.js:183-186 | an admin can set a COMPLETED ride to CANCELLED: the prior status is not checked |
| Rides.StudentOverridesAsWritten | src/routes/rides.routes.js:176-181 | as written, a STUDENT whose id equals the ride's driverId may complete the ride; the corrected override refuses it |
| Rides.UpdateStatusRefinesAsWritten | src/routes/rides.routes.js:176-186 | the corrected override agrees with the code whenever it succeeds, and then the caller is the assigned driver or an admin; it differs only by refusing such id collisions |
| Rides.HandlersKeepInvariant | src/routes/rides.routes.js:23-186 | request, accept, reject and the override keep ids positive, fresh and equal to their key; each keeps PENDING rides driverless and ACCEPTED rides with a driver |
| Rides.RideStore.Request | src/routes/rides.routes.js:10-38 | the handler answers as RequestRide, stores the new ride under the next id, and keeps the invariant |
| Rides.RideStore.Accept | src/routes/rides.routes.js:44-76 | the handler answers as AcceptRide and writes only that outcome; the invariant is kept |
| Rides.RideStore.Reject | src/routes/rides.routes.js:82-115 | the handler answers as RejectRide and writes only that outcome; the invariant is kept |
| Rides.RideStore.SetStatus | src/routes/rides.routes.js:160-193 | the handler answers as the corrected UpdateStatus and writes only that outcome; the invariant is kept |
| DriverQueries.AvailableRides | src/routes/driver.routes.js:16-21 | the list is sorted by createdAt ascending, is a permutation of the open rides, and contains exactly the rides that are PENDING with no driver |
| DriverQueries.AvailableCount | src/routes/driver.routes.js:16-20 | each open ride occurs in the list as often as in the table, and no other ride occurs |
| DriverQueries.AvailableAreThePending | src/routes/driver.routes.js:16-20 | in a table kept by the ride handlers, the list holds exactly the PENDING rides |
| DriverQueries.CurrentRide | src/routes/driver.routes.js:60-74 | the result is null exactly when no ride of this driver is ACCEPTED or IN_PROGRESS; otherwise it is the first such ride |
| DriverQueries.SumPrice | src/routes/driver.routes.js:112 | the earnings sum is a number exactly when every ride summed has a price, since a missing price parses to NaN; it is 0 for no rides and the ride's price for one ride |
| DriverQueries.StatsOf | src/routes/driver.routes.js:106-143 | today's ride count and distance never exceed the all-time ones; today's earning and the week's balance are numbers exactly when every COMPLETED ride of the driver in that window has a price |
| DriverQueries.CompletedRideAddsToEarnings | src/routes/driver.routes.js:107-113 | one more COMPLETED ride of the driver inside a window adds 1 to today's count, its price to today's earning or the week's balance (NaN if it has none) and its distance to today's distance; outside the window nothing changes |
| DriverQueries.TodayCountsCompletedSinceStartOfDay | src/routes/driver.routes.js:107-113 | today.rides counts exactly the caller's COMPLETED rides created at or after startOfDay, with multiplicity |
| DriverQueries.OtherRidesIgnored | src/routes/driver.routes.js:107-128 | inserting anywhere a ride that is not a COMPLETED ride of this driver changes no statistic |
| DriverQueries.CompletedRideAddsToAllTime | src/routes/driver.routes.js:116-121 | each further COMPLETED ride of the driver adds one to allTime.completedRides and its distance (0 if absent) to totalDistanceKm |
| DriverQueries.WindowsNested | src/routes/driver.routes.js:98-128 | with startOfWeek ≤ startOfDay, today's rides are among the week's, which are among all; today.rides ≤ completedRides; today's distance ≤ the all-time distance; a defined week earning bounds today's |
| DriverQueries.NoCompletedRidesGiveZeros | src/routes/driver.routes.js:112-143 | with no completed rides every count and sum is 0 |
| Auth.ParseRole | src/routes/auth.routes.js:16-18 | a role is recognised exactly for the strings STUDENT, DRIVER and ADMIN |
| Auth.CheckFields | src/routes/auth.routes.js:12-18 | a missing name, email or password fails with MissingFields whatever the role; with all three given, an unrecognised role fails with InvalidRole; the checks pass exactly when all three are given and the role is one of the three |
| Auth.MatchesAllIff | src/routes/auth.routes.js:33-34 | a string matches an anchored pattern of single-character classes exactly when it has the pattern's length and each character lies in its class |
| Auth.PlateFormat | src/routes/auth.routes.js:33-34 | a plate is exactly 9 characters: 3 capital ASCII letters, '-', 3 ASCII digits, 2 capital ASCII letters |
| Auth.PlateAccepted | src/routes/auth.routes.js:34 | a plate is accepted exactly when one is given and it matches the pattern; the emptiness test adds nothing, since a match is never empty |
| Auth.PlateExamples | src/routes/auth.routes.js:33-36 | ABC-123DE is accepted and abc-123de is not |
| Auth.InsertKeepsTableInv | src/routes/auth.routes.js:40-52 | inserting an account with a fresh non-empty email under the next id keeps the table's invariant |
| Auth.AccountStore.RegisterCheck | src/routes/auth.routes.js:12-38 | registration passes exactly when the fields and role pass, the email is in no table, and a DRIVER gives an accepted plate; a field or role failure is reported first; every failure is a 400 |
| Auth.AccountStore.TakenEmailRefused | src/routes/auth.routes.js:21-27 | an email held by any of the three tables is refused with EmailExists, whatever the role |
| Auth.AccountStore.PlateCheckedForDriversOnly | src/routes/auth.routes.js:32-38 | a DRIVER registration passes exactly when the plate is accepted and otherwise fails with InvalidPlate; for other roles the plate is ignored |
| Auth.AccountStore.Create | src/routes/auth.routes.js:40-52 | create stores one account in the table of its role under that table's next id and touches no other table |
| Auth.AccountStore.Register | src/routes/auth.routes.js:8-62 | register fails exactly when its checks fail, and then nothing changes; on success it inserts one account into the table of its role, with the hashed password, and the plate for drivers only; the returned user is that account without its password |
| Auth.AccountStore.Lookup | src/routes/auth.routes.js:72-82 | the search finds an account exactly when some table holds the email; the role is that of the first table holding it, in the order students, drivers, admins |
| Auth.AccountStore.Login | src/routes/auth.routes.js:65-96 | login succeeds exactly when both credentials are given, some table holds the email and the password matches the first holder's hash; the session then carries that account's id and table role and the account without its password; every failure is MissingCredentials or InvalidCredentials |
| Auth.AccountStore.LoginFailures | src/routes/auth.routes.js:67-87 | a missing email or password fails with MissingCredentials; an unknown email and a wrong password give the same InvalidCredentials |
| Auth.AccountStore.LoginRoleFromFirstTable | src/routes/auth.routes.js:72-96 | a successful login's role is that of the first table holding the email; the token claims that account's id, and the user is returned without its password |
| Auth.AccountStore.LoginFindsAccount | src/routes/auth.routes.js:72-96 | with emails unique across tables, a matching password logs in with the role of the one table that holds the account |

## Findings

| source | as written | input that shows it | evidently intended | confidence | as-written member | corrected member |
|---|---|---|---|---|---|---|
| src/routes/rides.routes.js:176-181 | the status override admits any caller whose id equals the ride's driverId, or any ADMIN. The route has no role gate, and the three account tables number their ids independently | a STUDENT with id 5 sends COMPLETED for a ride whose driverId is 5 (driver #5); the update succeeds | only the assigned DRIVER or an ADMIN may update, as the comment on line 176 says | medium; not executed; depends on student and driver ids coming from separate sequences | Rides.StudentOverridesAsWritten | Rides.UpdateStatusRefinesAsWritten |

The code as written is `Rides.UpdateStatusAsWritten`. The corrected
outcome is `Rides.UpdateStatus`, which adds the role check
`Rides.MayOverride`. `Rides.RideStore.SetStatus` runs the corrected
outcome.

## Left out

- Rides.RideStore.SetStatus: follows the corrected authorisation from the Findings table, not the code as written. The code as written is modelled by `Rides.UpdateStatusAsWritten`.
- Concurrency: each handler is one atomic step. The read-then-write race of two drivers accepting the same ride is not modelled, and no race-freedom is claimed.
- Authentication: `authenticateUser` and JWT verification are not modelled. The caller arrives as a `Principal`. In `rides.routes.js` the route-level `authorizeRoles(...)` gates are modelled as a `Forbidden` refusal checked first. This is an assumed behaviour: `src/middleware/auth.js` exports only `authMiddleware`, so neither `authorizeRoles` nor `authenticateUser` is defined in the repository.
- Express plumbing, `console.error` and the catch-all 500 responses are left out. This includes inputs that would make the database call throw, such as a non-numeric `:id` or a string `rideId`.
- GET `/rides/:id`, the admin and user routes, the phone backfill script and the app wiring are left out. They are store reads or pass-throughs with no rules.
- Prisma `select`/`include` projections are left out: the available list and the current ride return whole `Ride` records without the joined student.
- The database schema is not part of this model. Fields the request handler does not set (distance, duration, price) are modelled as null. `updatedAt` is not modelled. `createdAt` is the `now` passed to `Request`.
- bcrypt hashing and comparison are passed in as functions. JWT signing is left out: a login returns the claims `{id, role}` that the token would carry.
- Floating point: amounts and distances are natural numbers. A missing price is `None`, standing for NaN, which JSON sends as null. A missing distance adds 0, as `sum + null` does.
- Date arithmetic: `startOfDay` and `startOfWeek` are inputs. The nesting lemma assumes `startOfWeek <= startOfDay`, as the local-time computation gives.
- Driver query gates: the three routes of `driver.routes.js` are gated by `authorizeRoles("DRIVER")`. The queries `AvailableRides`, `CurrentRide` and `StatsOf` take the driver's id directly and leave this gate out.
- DriverQueries.CurrentRide: `findFirst` has no `orderBy`, so the model returns the first matching ride in the table's sequence order.
- DriverQueries.AvailableRides: the database order of rides with equal `createdAt` is unspecified. The contract promises only sortedness and permutation, not a tie order.
