/** The ride lifecycle handlers of `rides.routes.js`: request, accept, reject
    and the status override, over a table of rides keyed by id.

    Each handler reads one ride, checks it, and writes at most one ride back.
    The outcome functions below decide what a handler answers; `Commit`
    says what it writes; the class `RideStore` runs the handlers in place
    and is proved to do exactly what those functions say. */
module Rides {
  import opened Common

  datatype Status = Pending | Accepted | InProgress | Completed | Cancelled

  datatype Ride = Ride(
    id: int,
    studentId: int,
    driverId: Option<int>,
    pickup: string,
    destination: string,
    distanceKm: Option<nat>,
    durationMins: Option<nat>,
    priceNaira: Option<nat>,
    status: Status,
    createdAt: int)

  type Table = map<int, Ride>

  /** What every handler keeps true of each stored ride: a PENDING ride has
      no driver, and an ACCEPTED ride has one. */
  predicate Coherent(r: Ride)
  {
    && (r.status == Pending ==> r.driverId.None?)
    && (r.status == Accepted ==> r.driverId.Some?)
  }

  /** Every ride is stored under its own id. */
  predicate WellKeyed(rides: Table)
  {
    forall id :: id in rides ==> rides[id].id == id
  }

  /** The table's invariant: ids are positive, below the next id to hand
      out, agree with their key, and every ride is coherent. */
  predicate StoreInv(rides: Table, nextId: int)
  {
    && 1 <= nextId
    && WellKeyed(rides)
    && forall id :: id in rides ==> 1 <= id < nextId && Coherent(rides[id])
  }

  /** The write a handler performs: the ride it answers with is stored
      under its id; a refused request writes nothing. */
  function Commit(rides: Table, res: Result<Ride>): (after: Table)
    ensures res.Err? ==> after == rides
    ensures res.Ok? ==> after.Keys == rides.Keys + {res.value.id} && after[res.value.id] == res.value
    ensures forall k :: k in rides && (res.Err? || k != res.value.id) ==> k in after && after[k] == rides[k]
  {
    if res.Ok? then rides[res.value.id := res.value] else rides
  }

  /** JavaScript truthiness of the `rideId` body field: present and not 0. */
  predicate RideIdGiven(rideId: Option<int>)
  {
    rideId.Some? && rideId.value != 0
  }

  /** POST /rides/request: a STUDENT opens a PENDING ride under the next id. */
  function RequestRide(caller: Principal, pickup: Option<string>, destination: Option<string>,
                       id: int, now: int): (res: Result<Ride>)
    ensures caller.role != Student ==> res == Err(Forbidden)
    ensures res.Ok? <==> caller.role == Student && Present(pickup) && Present(destination)
    ensures res.Ok? ==>
      && res.value.id == id && res.value.studentId == caller.id && res.value.createdAt == now
      && res.value.pickup == pickup.value && res.value.destination == destination.value
      && res.value.status == Pending && Coherent(res.value)
  {
    if caller.role != Student then Err(Forbidden)
    else if !Present(pickup) || !Present(destination) then Err(InvalidInput(MissingLocations))
    else Ok(Ride(id, caller.id, None, pickup.value, destination.value, None, None, None, Pending, now))
  }

  /** POST /rides/accept: a DRIVER takes a PENDING ride. */
  function AcceptRide(rides: Table, caller: Principal, rideId: Option<int>): (res: Result<Ride>)
    ensures caller.role != Driver ==> res == Err(Forbidden)
    ensures res.Ok? <==> caller.role == Driver && RideIdGiven(rideId) && rideId.value in rides
                         && rides[rideId.value].status == Pending
    ensures res.Ok? ==> res.value == rides[rideId.value].(status := Accepted, driverId := Some(caller.id))
                        && Coherent(res.value)
  {
    if caller.role != Driver then Err(Forbidden)
    else if !RideIdGiven(rideId) then Err(InvalidInput(MissingRideId))
    else if rideId.value !in rides then Err(NotFound)
    else if rides[rideId.value].status != Pending then Err(NotAvailable)
    else Ok(rides[rideId.value].(driverId := Some(caller.id), status := Accepted))
  }

  /** POST /rides/reject: a DRIVER declines a PENDING ride, which stays
      PENDING with no driver. */
  function RejectRide(rides: Table, caller: Principal, rideId: Option<int>): (res: Result<Ride>)
    ensures caller.role != Driver ==> res == Err(Forbidden)
    ensures res.Ok? <==> caller.role == Driver && RideIdGiven(rideId) && rideId.value in rides
                         && rides[rideId.value].status == Pending
    ensures res.Ok? ==> res.value == rides[rideId.value].(driverId := None) && Coherent(res.value)
  {
    if caller.role != Driver then Err(Forbidden)
    else if !RideIdGiven(rideId) then Err(InvalidInput(MissingRideId))
    else if rideId.value !in rides then Err(NotFound)
    else if rides[rideId.value].status != Pending then Err(NotAvailable)
    else Ok(rides[rideId.value].(driverId := None, status := Pending))
  }

  /** The body's `status` if it is one of the three values the override may set. */
  function ParseSettable(status: Option<string>): (s: Option<Status>)
    ensures s == Some(InProgress) <==> status == Some("IN_PROGRESS")
    ensures s == Some(Completed) <==> status == Some("COMPLETED")
    ensures s == Some(Cancelled) <==> status == Some("CANCELLED")
    ensures s.Some? ==> s.value == InProgress || s.value == Completed || s.value == Cancelled
  {
    if status == Some("IN_PROGRESS") then Some(InProgress)
    else if status == Some("COMPLETED") then Some(Completed)
    else if status == Some("CANCELLED") then Some(Cancelled)
    else None
  }

  /** PUT /rides/:id/status exactly as the handler is written: any caller
      whose id equals the ride's driverId, or any ADMIN, may overwrite the
      status, whatever the current status is. */
  function UpdateStatusAsWritten(rides: Table, caller: Principal, id: int, status: Option<string>)
    : (res: Result<Ride>)
    ensures res.Ok? <==> ParseSettable(status).Some? && id in rides
                         && (rides[id].driverId == Some(caller.id) || caller.role == Admin)
    ensures ParseSettable(status).Some? && id !in rides ==> res == Err(NotFound)
    ensures res.Ok? ==> res.value == rides[id].(status := ParseSettable(status).value)
    ensures res.Err? ==> res.error in {InvalidInput(InvalidStatus), NotFound, Forbidden}
  {
    var target := ParseSettable(status);
    if target.None? then Err(InvalidInput(InvalidStatus))
    else if id !in rides then Err(NotFound)
    else if Some(caller.id) != rides[id].driverId && caller.role != Admin then Err(Forbidden)
    else Ok(rides[id].(status := target.value))
  }

  /** Who may use the override: the DRIVER assigned to the ride, or an ADMIN.
      Account ids are numbered per table, so the caller's id alone does not
      identify the assigned driver; the role must be checked as well. */
  predicate MayOverride(caller: Principal, ride: Ride): (may: bool)
    ensures may ==> caller.role != Student
    ensures caller.role == Driver ==> (may <==> ride.driverId == Some(caller.id))
  {
    caller.role == Admin || (caller.role == Driver && ride.driverId == Some(caller.id))
  }

  /** PUT /rides/:id/status with the authorisation the handler's comment
      states: the as-written outcome, refused for callers that are neither
      the assigned driver nor an admin. */
  function UpdateStatus(rides: Table, caller: Principal, id: int, status: Option<string>): (res: Result<Ride>)
    ensures res.Ok? <==> ParseSettable(status).Some? && id in rides && MayOverride(caller, rides[id])
    ensures ParseSettable(status).Some? && id !in rides ==> res == Err(NotFound)
    ensures res.Ok? ==> res.value == rides[id].(status := ParseSettable(status).value)
    ensures res.Err? ==> res.error in {InvalidInput(InvalidStatus), NotFound, Forbidden}
  {
    var res := UpdateStatusAsWritten(rides, caller, id, status);
    if res.Ok? && !MayOverride(caller, rides[id]) then Err(Forbidden) else res
  }

  // ---------------------------------------------------------------------
  // Properties of the handlers

  /** A request without a pickup or a destination is refused and creates nothing. */
  lemma RequestNeedsLocations(rides: Table, caller: Principal, pickup: Option<string>,
                              destination: Option<string>, id: int, now: int)
    requires caller.role == Student
    ensures var res := RequestRide(caller, pickup, destination, id, now);
      && (res.Ok? <==> Present(pickup) && Present(destination))
      && (res.Err? ==> res.error == InvalidInput(MissingLocations) && Commit(rides, res) == rides)
  {
  }

  /** A successful request adds exactly one ride, PENDING, owned by the
      caller, with no driver, under a fresh id, and leaves all other rides alone. */
  lemma RequestAddsOnePendingRide(rides: Table, nextId: int, caller: Principal,
                                  pickup: Option<string>, destination: Option<string>, now: int)
    requires StoreInv(rides, nextId)
    requires RequestRide(caller, pickup, destination, nextId, now).Ok?
    ensures var r := RequestRide(caller, pickup, destination, nextId, now).value;
      && r.id == nextId && nextId !in rides
      && r.status == Pending && r.studentId == caller.id && r.driverId.None?
      && r.pickup == pickup.value && r.destination == destination.value && r.createdAt == now
      && Commit(rides, Ok(r)).Keys == rides.Keys + {nextId}
      && |Commit(rides, Ok(r))| == |rides| + 1
      && forall k :: k in rides ==> Commit(rides, Ok(r))[k] == rides[k]
  {
  }

  /** Accept checks, in this order: the role, that a rideId is given (before
      any lookup), that the ride exists, that it is PENDING. A refusal
      leaves the table unchanged. */
  lemma AcceptCheckOrder(rides: Table, caller: Principal, rideId: Option<int>)
    ensures var res := AcceptRide(rides, caller, rideId);
      && (caller.role == Driver && !RideIdGiven(rideId) ==> res == Err(InvalidInput(MissingRideId)))
      && (caller.role == Driver && RideIdGiven(rideId) && rideId.value !in rides ==> res == Err(NotFound))
      && ((caller.role == Driver && RideIdGiven(rideId) && rideId.value in rides
            && rides[rideId.value].status != Pending) ==> res == Err(NotAvailable))
      && (res.Err? ==> Commit(rides, res) == rides)
  {
  }

  /** Accept succeeds exactly on a PENDING ride; the stored ride then is
      ACCEPTED with the caller as driver, every other field and every other
      ride unchanged. */
  lemma AcceptAssignsCaller(rides: Table, caller: Principal, rideId: Option<int>)
    requires WellKeyed(rides)
    ensures var res := AcceptRide(rides, caller, rideId);
      && (res.Ok? <==> caller.role == Driver && RideIdGiven(rideId) && rideId.value in rides
                       && rides[rideId.value].status == Pending)
      && (res.Ok? ==>
            var old_ := rides[rideId.value];
            var after := Commit(rides, res);
            && after.Keys == rides.Keys
            && after[rideId.value].status == Accepted
            && after[rideId.value].driverId == Some(caller.id)
            && after[rideId.value] == old_.(status := Accepted, driverId := Some(caller.id))
            && forall k :: k in rides && k != rideId.value ==> after[k] == rides[k])
  {
  }

  /** Reject checks in the same order as accept: the role, that a rideId is
      given (before any lookup), that the ride exists, that it is PENDING.
      A refusal leaves the table unchanged. */
  lemma RejectCheckOrder(rides: Table, caller: Principal, rideId: Option<int>)
    ensures var res := RejectRide(rides, caller, rideId);
      && (caller.role == Driver && !RideIdGiven(rideId) ==> res == Err(InvalidInput(MissingRideId)))
      && (caller.role == Driver && RideIdGiven(rideId) && rideId.value !in rides ==> res == Err(NotFound))
      && ((caller.role == Driver && RideIdGiven(rideId) && rideId.value in rides
            && rides[rideId.value].status != Pending) ==> res == Err(NotAvailable))
      && (res.Err? ==> Commit(rides, res) == rides)
  {
  }

  /** Reject succeeds only on a PENDING ride, leaves it PENDING with no
      driver, and refusals change nothing. */
  lemma RejectKeepsPending(rides: Table, caller: Principal, rideId: Option<int>)
    requires WellKeyed(rides)
    ensures var res := RejectRide(rides, caller, rideId);
      && (res.Ok? <==> caller.role == Driver && RideIdGiven(rideId) && rideId.value in rides
                       && rides[rideId.value].status == Pending)
      && (res.Ok? ==> Commit(rides, res)[rideId.value].status == Pending
                      && Commit(rides, res)[rideId.value].driverId.None?)
      && (res.Err? ==> Commit(rides, res) == rides)
  {
  }

  /** Rejecting twice leaves the table as rejecting once does. */
  lemma RejectIdempotent(rides: Table, caller: Principal, rideId: Option<int>)
    requires WellKeyed(rides)
    ensures var once := Commit(rides, RejectRide(rides, caller, rideId));
      Commit(once, RejectRide(once, caller, rideId)) == once
  {
  }

  /** Since a PENDING ride never has a driver, a successful reject writes
      back the very record it read: the table is unchanged. */
  lemma RejectWritesNoChange(rides: Table, nextId: int, caller: Principal, rideId: Option<int>)
    requires StoreInv(rides, nextId)
    ensures Commit(rides, RejectRide(rides, caller, rideId)) == rides
  {
  }

  /** The target status is checked before the ride is looked up: an invalid
      target is refused even for an unknown id, and changes nothing. */
  lemma StatusCheckedBeforeLookup(rides: Table, caller: Principal, id: int, status: Option<string>)
    requires ParseSettable(status).None?
    ensures UpdateStatus(rides, caller, id, status) == Err(InvalidInput(InvalidStatus))
    ensures UpdateStatusAsWritten(rides, caller, id, status) == Err(InvalidInput(InvalidStatus))
  {
  }

  /** The override refuses callers it does not authorise, and otherwise
      overwrites only the status field, with no check of the prior status. */
  lemma OverrideWritesOnlyStatus(rides: Table, caller: Principal, id: int, status: Option<string>)
    requires WellKeyed(rides) && ParseSettable(status).Some? && id in rides
    ensures var res := UpdateStatus(rides, caller, id, status);
      && (!MayOverride(caller, rides[id]) ==> res == Err(Forbidden) && Commit(rides, res) == rides)
      && (MayOverride(caller, rides[id]) ==>
            res.Ok? && Commit(rides, res) == rides[id := rides[id].(status := ParseSettable(status).value)])
  {
  }

  /** A COMPLETED ride can be set to CANCELLED by an admin: the override
      does not look at the current status. */
  lemma OverrideIgnoresPriorStatus(rides: Table, admin: Principal, id: int)
    requires admin.role == Admin && id in rides && rides[id].status == Completed
    ensures UpdateStatus(rides, admin, id, Some("CANCELLED")) == Ok(rides[id].(status := Cancelled))
  {
  }

  /** As written, the override lets a STUDENT whose account id happens to
      equal the assigned driver's id change the ride's status. */
  lemma StudentOverridesAsWritten()
    ensures var ride := Ride(1, 5, Some(5), "Gate", "Library", None, None, None, Accepted, 0);
      && UpdateStatusAsWritten(map[1 := ride], Principal(5, Student), 1, Some("COMPLETED"))
           == Ok(ride.(status := Completed))
      && UpdateStatus(map[1 := ride], Principal(5, Student), 1, Some("COMPLETED")) == Err(Forbidden)
  {
  }

  /** The corrected override differs from the code as written only by
      refusing callers that are neither the assigned driver nor an admin;
      whenever it succeeds the caller is one of them. */
  lemma UpdateStatusRefinesAsWritten(rides: Table, caller: Principal, id: int, status: Option<string>)
    ensures var fixed := UpdateStatus(rides, caller, id, status);
            var written := UpdateStatusAsWritten(rides, caller, id, status);
      && (fixed.Ok? ==> fixed == written && MayOverride(caller, rides[id]))
      && (fixed != written ==> fixed == Err(Forbidden) && written.Ok?
                                && caller.role == Student && rides[id].driverId == Some(caller.id))
  {
  }

  /** Every handler keeps the table's invariant. */
  lemma HandlersKeepInvariant(rides: Table, nextId: int, caller: Principal, rideId: Option<int>,
                              id: int, status: Option<string>, pickup: Option<string>,
                              destination: Option<string>, now: int)
    requires StoreInv(rides, nextId)
    ensures var res := RequestRide(caller, pickup, destination, nextId, now);
      StoreInv(Commit(rides, res), if res.Ok? then nextId + 1 else nextId)
    ensures StoreInv(Commit(rides, AcceptRide(rides, caller, rideId)), nextId)
    ensures StoreInv(Commit(rides, RejectRide(rides, caller, rideId)), nextId)
    ensures StoreInv(Commit(rides, UpdateStatus(rides, caller, id, status)), nextId)
  {
  }

  // ---------------------------------------------------------------------
  // The ride table, updated in place

  class RideStore {
    var rides: Table
    var nextId: int

    ghost predicate Valid()
      reads this
    {
      StoreInv(rides, nextId)
    }

    constructor ()
      ensures Valid() && rides == map[] && nextId == 1
    {
      rides := map[];
      nextId := 1;
    }

    /** POST /rides/request. */
    method Request(caller: Principal, pickup: Option<string>, destination: Option<string>, now: int)
      returns (res: Result<Ride>)
      requires Valid()
      modifies this
      ensures Valid()
      ensures res == RequestRide(caller, pickup, destination, old(nextId), now)
      ensures rides == Commit(old(rides), res)
      ensures nextId == if res.Ok? then old(nextId) + 1 else old(nextId)
    {
      if caller.role != Student {
        return Err(Forbidden);
      }
      if !Present(pickup) || !Present(destination) {
        return Err(InvalidInput(MissingLocations));
      }
      var ride := Ride(nextId, caller.id, None, pickup.value, destination.value, None, None, None, Pending, now);
      rides := rides[nextId := ride];
      nextId := nextId + 1;
      res := Ok(ride);
    }

    /** POST /rides/accept. */
    method Accept(caller: Principal, rideId: Option<int>) returns (res: Result<Ride>)
      requires Valid()
      modifies this`rides
      ensures Valid()
      ensures res == AcceptRide(old(rides), caller, rideId)
      ensures rides == Commit(old(rides), res)
    {
      if caller.role != Driver {
        return Err(Forbidden);
      }
      if !RideIdGiven(rideId) {
        return Err(InvalidInput(MissingRideId));
      }
      var id := rideId.value;
      if id !in rides {
        return Err(NotFound);
      }
      var ride := rides[id];
      if ride.status != Pending {
        return Err(NotAvailable);
      }
      var updated := ride.(driverId := Some(caller.id), status := Accepted);
      rides := rides[id := updated];
      res := Ok(updated);
    }

    /** POST /rides/reject. */
    method Reject(caller: Principal, rideId: Option<int>) returns (res: Result<Ride>)
      requires Valid()
      modifies this`rides
      ensures Valid()
      ensures res == RejectRide(old(rides), caller, rideId)
      ensures rides == Commit(old(rides), res)
    {
      if caller.role != Driver {
        return Err(Forbidden);
      }
      if !RideIdGiven(rideId) {
        return Err(InvalidInput(MissingRideId));
      }
      var id := rideId.value;
      if id !in rides {
        return Err(NotFound);
      }
      var ride := rides[id];
      if ride.status != Pending {
        return Err(NotAvailable);
      }
      var updated := ride.(driverId := None, status := Pending);
      rides := rides[id := updated];
      res := Ok(updated);
    }

    /** PUT /rides/:id/status, with the corrected authorisation. */
    method SetStatus(caller: Principal, id: int, status: Option<string>) returns (res: Result<Ride>)
      requires Valid()
      modifies this`rides
      ensures Valid()
      ensures res == UpdateStatus(old(rides), caller, id, status)
      ensures rides == Commit(old(rides), res)
    {
      var target := ParseSettable(status);
      if target.None? {
        return Err(InvalidInput(InvalidStatus));
      }
      if id !in rides {
        return Err(NotFound);
      }
      var ride := rides[id];
      if !MayOverride(caller, ride) {
        return Err(Forbidden);
      }
      var updated := ride.(status := target.value);
      rides := rides[id := updated];
      res := Ok(updated);
    }
  }
}
