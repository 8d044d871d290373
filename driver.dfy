/** The read-only driver queries of `driver.routes.js`: the open rides a
    driver may take, the driver's current ride, and the earnings and
    distance rollups. The ride table is read as a sequence of rides in the
    order the store returns them. */
module DriverQueries {
  import opened Common
  import opened Rides

  // ---------------------------------------------------------------------
  // Selecting rides

  /** The rides of `s` that satisfy `p`, in their original order. */
  function Filter(s: seq<Ride>, p: Ride -> bool): (r: seq<Ride>)
    ensures |r| <= |s|
    ensures forall x :: x in r <==> x in s && p(x)
  {
    if s == [] then []
    else (if p(s[0]) then [s[0]] else []) + Filter(s[1..], p)
  }

  /** Filtering keeps every matching ride as often as it occurs, and no other. */
  lemma {:induction false} FilterCount(s: seq<Ride>, p: Ride -> bool, x: Ride)
    ensures multiset(Filter(s, p))[x] == if p(x) then multiset(s)[x] else 0
  {
    if s != [] {
      FilterCount(s[1..], p, x);
      assert s == [s[0]] + s[1..];
    }
  }

  /** Nothing survives a condition no ride satisfies. */
  lemma {:induction false} FilterNone(s: seq<Ride>, p: Ride -> bool)
    requires forall x :: x in s ==> !p(x)
    ensures Filter(s, p) == []
  {
    if s != [] {
      FilterNone(s[1..], p);
    }
  }

  /** Filtering distributes over concatenation. */
  lemma {:induction false} FilterAppend(a: seq<Ride>, b: seq<Ride>, p: Ride -> bool)
    ensures Filter(a + b, p) == Filter(a, p) + Filter(b, p)
  {
    if a == [] {
      assert a + b == b;
    } else {
      var head := if p(a[0]) then [a[0]] else [];
      calc {
        Filter(a + b, p);
        { assert (a + b)[0] == a[0]; }
        head + Filter((a + b)[1..], p);
        { assert (a + b)[1..] == a[1..] + b; }
        head + Filter(a[1..] + b, p);
        { FilterAppend(a[1..], b, p); }
        head + (Filter(a[1..], p) + Filter(b, p));
        (head + Filter(a[1..], p)) + Filter(b, p);
      }
    }
  }

  /** Filtering by a stronger condition can be done in two steps, through a weaker one. */
  lemma {:induction false} FilterNarrower(s: seq<Ride>, p: Ride -> bool, q: Ride -> bool)
    requires forall x :: p(x) ==> q(x)
    ensures Filter(Filter(s, q), p) == Filter(s, p)
  {
    if s != [] {
      FilterNarrower(s[1..], p, q);
      var t := Filter(s, q);
      if q(s[0]) {
        assert t == [s[0]] + Filter(s[1..], q);
        assert t[0] == s[0] && t[1..] == Filter(s[1..], q);
        calc {
          Filter(t, p);
          (if p(s[0]) then [s[0]] else []) + Filter(t[1..], p);
          (if p(s[0]) then [s[0]] else []) + Filter(s[1..], p);
          Filter(s, p);
        }
      } else {
        assert !p(s[0]);
        assert t == Filter(s[1..], q);
        assert Filter(s, p) == Filter(s[1..], p);
      }
    }
  }

  // ---------------------------------------------------------------------
  // GET /driver/rides/available

  /** A ride a driver may accept: PENDING with no driver assigned. */
  predicate IsOpen(r: Ride)
  {
    r.status == Pending && r.driverId.None?
  }

  predicate SortedByCreation(s: seq<Ride>)
  {
    forall i, j :: 0 <= i < j < |s| ==> s[i].createdAt <= s[j].createdAt
  }

  /** A ride created no later than every ride of a sorted sequence may head it. */
  lemma SortedCons(h: Ride, t: seq<Ride>)
    requires SortedByCreation(t)
    requires forall k :: 0 <= k < |t| ==> h.createdAt <= t[k].createdAt
    ensures SortedByCreation([h] + t)
  {
  }

  /** Places `x` before the first ride of `s` created no earlier than it. */
  function InsertByCreation(x: Ride, s: seq<Ride>): (r: seq<Ride>)
    requires SortedByCreation(s)
    ensures SortedByCreation(r)
    ensures multiset(r) == multiset(s) + multiset{x}
  {
    if s == [] || x.createdAt <= s[0].createdAt then
      SortedCons(x, s);
      [x] + s
    else
      var rest := InsertByCreation(x, s[1..]);
      assert s == [s[0]] + s[1..];
      assert forall k :: 0 <= k < |rest| ==> s[0].createdAt <= rest[k].createdAt by {
        forall k | 0 <= k < |rest| ensures s[0].createdAt <= rest[k].createdAt {
          assert rest[k] in multiset(rest);
          if rest[k] != x {
            assert rest[k] in multiset(s[1..]);
            var m :| 0 <= m < |s[1..]| && s[1..][m] == rest[k];
            assert s[m + 1] == rest[k];
          }
        }
      }
      SortedCons(s[0], rest);
      [s[0]] + rest
  }

  /** The rides of `s` ordered by `createdAt`, oldest first. */
  function SortByCreation(s: seq<Ride>): (r: seq<Ride>)
    ensures SortedByCreation(r)
    ensures multiset(r) == multiset(s)
  {
    if s == [] then []
    else
      assert s == [s[0]] + s[1..];
      InsertByCreation(s[0], SortByCreation(s[1..]))
  }

  /** The open rides, oldest first: exactly the open rides of the table,
      each as often as it is stored. */
  function AvailableRides(rides: seq<Ride>): (list: seq<Ride>)
    ensures SortedByCreation(list)
    ensures multiset(list) == multiset(Filter(rides, IsOpen))
    ensures forall r :: r in list <==> r in rides && IsOpen(r)
  {
    var list := SortByCreation(Filter(rides, IsOpen));
    assert forall r :: r in list <==> r in multiset(list);
    list
  }

  /** Each open ride appears in the list as often as it is stored, and no
      other ride appears. */
  lemma AvailableCount(rides: seq<Ride>, r: Ride)
    ensures multiset(AvailableRides(rides))[r] == if IsOpen(r) then multiset(rides)[r] else 0
  {
    FilterCount(rides, IsOpen, r);
  }

  /** In a table kept by the ride handlers a PENDING ride never has a
      driver, so the list holds exactly the PENDING rides. */
  lemma AvailableAreThePending(rides: seq<Ride>, r: Ride)
    requires forall x :: x in rides ==> Coherent(x)
    ensures r in AvailableRides(rides) <==> r in rides && r.status == Pending
  {
  }

  // ---------------------------------------------------------------------
  // GET /driver/rides/current

  /** A ride the driver is working on: assigned to them and ACCEPTED or IN_PROGRESS. */
  predicate IsCurrentFor(r: Ride, driverId: int)
  {
    r.driverId == Some(driverId) && (r.status == Accepted || r.status == InProgress)
  }

  /** The first ride of the table the driver is working on, if any. */
  function CurrentRide(rides: seq<Ride>, driverId: int): (found: Option<Ride>)
    ensures found.None? <==> forall r :: r in rides ==> !IsCurrentFor(r, driverId)
    ensures found.Some? ==>
      exists i :: 0 <= i < |rides| && rides[i] == found.value && IsCurrentFor(rides[i], driverId)
                  && forall j :: 0 <= j < i ==> !IsCurrentFor(rides[j], driverId)
  {
    if rides == [] then None
    else if IsCurrentFor(rides[0], driverId) then
      Some(rides[0])
    else
      var found := CurrentRide(rides[1..], driverId);
      assert rides == [rides[0]] + rides[1..];
      if found.Some? then
        var i :| 0 <= i < |rides[1..]| && rides[1..][i] == found.value && IsCurrentFor(rides[1..][i], driverId)
                 && forall j :: 0 <= j < i ==> !IsCurrentFor(rides[1..][j], driverId);
        assert rides[i + 1] == found.value;
        assert forall j :: 0 <= j < i + 1 ==> !IsCurrentFor(rides[j], driverId) by {
          forall j | 0 <= j < i + 1 ensures !IsCurrentFor(rides[j], driverId) {
            if j > 0 { assert rides[j] == rides[1..][j - 1]; }
          }
        }
        found
      else
        found
  }

  // ---------------------------------------------------------------------
  // GET /driver/stats

  /** A ride that counts toward a driver's statistics. */
  predicate CompletedBy(r: Ride, driverId: int)
  {
    r.driverId == Some(driverId) && r.status == Completed
  }

  function IsCompletedBy(driverId: int): Ride -> bool
  {
    r => CompletedBy(r, driverId)
  }

  function IsCompletedSince(driverId: int, from: int): Ride -> bool
  {
    r => CompletedBy(r, driverId) && r.createdAt >= from
  }

  /** A ride's distance as the rollup adds it: a missing distance adds 0. */
  function Distance(r: Ride): nat
  {
    if r.distanceKm.Some? then r.distanceKm.value else 0
  }

  /** Total distance of `s`, starting from 0. */
  function SumDistance(s: seq<Ride>): (total: nat)
    ensures s == [] ==> total == 0
  {
    if s == [] then 0 else Distance(s[0]) + SumDistance(s[1..])
  }

  /** `sum + parseFloat(price)`: a missing price parses to NaN, and a NaN
      sum stays NaN. */
  function AddPrice(sum: Option<nat>, price: Option<nat>): Option<nat>
  {
    if sum.Some? && price.Some? then Some(sum.value + price.value) else None
  }

  /** Total price of `s`, starting from 0. A missing price swallows the
      whole sum: the total is then `None`. */
  function SumPrice(s: seq<Ride>): (total: Option<nat>)
    ensures total.Some? <==> forall r :: r in s ==> r.priceNaira.Some?
    ensures s == [] ==> total == Some(0)
    ensures |s| == 1 ==> total == s[0].priceNaira
  {
    if s == [] then Some(0)
    else
      var rest := SumPrice(s[1..]);
      assert s == [s[0]] + s[1..];
      if s[0].priceNaira.None? || rest.None? then None
      else Some(s[0].priceNaira.value + rest.value)
  }

  datatype TodayStats = TodayStats(rides: nat, earning: Option<nat>, distanceKm: nat)
  datatype AllTimeStats = AllTimeStats(completedRides: nat, totalDistanceKm: nat)
  datatype WeekStats = WeekStats(totalBalance: Option<nat>)
  datatype DriverStats = DriverStats(today: TodayStats, allTime: AllTimeStats, week: WeekStats)

  /** The driver's rollup over the completed rides of three windows: since
      `startOfDay`, since `startOfWeek`, and ever. */
  function StatsOf(rides: seq<Ride>, driverId: int, startOfDay: int, startOfWeek: int): (stats: DriverStats)
    ensures stats.today.rides <= stats.allTime.completedRides
    ensures stats.today.distanceKm <= stats.allTime.totalDistanceKm
    ensures stats.today.earning.Some?
            <==> forall r :: r in rides && CompletedBy(r, driverId) && r.createdAt >= startOfDay
                   ==> r.priceNaira.Some?
    ensures stats.week.totalBalance.Some?
            <==> forall r :: r in rides && CompletedBy(r, driverId) && r.createdAt >= startOfWeek
                   ==> r.priceNaira.Some?
  {
    var today := Filter(rides, IsCompletedSince(driverId, startOfDay));
    var all := Filter(rides, IsCompletedBy(driverId));
    var week := Filter(rides, IsCompletedSince(driverId, startOfWeek));
    FilterNarrower(rides, IsCompletedSince(driverId, startOfDay), IsCompletedBy(driverId));
    SumDistanceFilter(all, IsCompletedSince(driverId, startOfDay));
    DriverStats(
      TodayStats(|today|, SumPrice(today), SumDistance(today)),
      AllTimeStats(|all|, SumDistance(all)),
      WeekStats(SumPrice(week)))
  }

  lemma {:induction false} SumDistanceAppend(a: seq<Ride>, b: seq<Ride>)
    ensures SumDistance(a + b) == SumDistance(a) + SumDistance(b)
  {
    if a == [] {
      assert a + b == b;
    } else {
      SumDistanceAppend(a[1..], b);
      assert (a + b)[1..] == a[1..] + b;
    }
  }

  lemma {:induction false} SumPriceAppend(a: seq<Ride>, b: seq<Ride>)
    ensures SumPrice(a + b).Some? <==> SumPrice(a).Some? && SumPrice(b).Some?
    ensures SumPrice(a + b).Some? ==> SumPrice(a + b).value == SumPrice(a).value + SumPrice(b).value
  {
    if a == [] {
      assert a + b == b;
    } else {
      SumPriceAppend(a[1..], b);
      assert (a + b)[1..] == a[1..] + b;
    }
  }

  /** Dropping rides never raises the distance total. */
  lemma {:induction false} SumDistanceFilter(s: seq<Ride>, p: Ride -> bool)
    ensures SumDistance(Filter(s, p)) <= SumDistance(s)
  {
    if s != [] {
      SumDistanceFilter(s[1..], p);
      SumDistanceAppend(if p(s[0]) then [s[0]] else [], Filter(s[1..], p));
    }
  }

  /** Dropping rides keeps a defined price total defined and never raises it. */
  lemma {:induction false} SumPriceFilter(s: seq<Ride>, p: Ride -> bool)
    requires SumPrice(s).Some?
    ensures SumPrice(Filter(s, p)).Some? && SumPrice(Filter(s, p)).value <= SumPrice(s).value
  {
    if s != [] {
      SumPriceFilter(s[1..], p);
      SumPriceAppend(if p(s[0]) then [s[0]] else [], Filter(s[1..], p));
    }
  }

  /** `today.rides` counts exactly the driver's COMPLETED rides created at
      or after the start of the day, each as often as it is stored. */
  lemma TodayCountsCompletedSinceStartOfDay(rides: seq<Ride>, driverId: int,
                                            startOfDay: int, startOfWeek: int)
    ensures var today := Filter(rides, IsCompletedSince(driverId, startOfDay));
      && StatsOf(rides, driverId, startOfDay, startOfWeek).today.rides == |today|
      && forall r :: multiset(today)[r]
           == if CompletedBy(r, driverId) && r.createdAt >= startOfDay then multiset(rides)[r] else 0
  {
    forall r {
      FilterCount(rides, IsCompletedSince(driverId, startOfDay), r);
    }
  }

  /** A ride that is not a COMPLETED ride of this driver, wherever it is
      stored, affects no statistic. */
  lemma OtherRidesIgnored(before: seq<Ride>, after: seq<Ride>, x: Ride,
                          driverId: int, startOfDay: int, startOfWeek: int)
    requires !CompletedBy(x, driverId)
    ensures StatsOf(before + [x] + after, driverId, startOfDay, startOfWeek)
            == StatsOf(before + after, driverId, startOfDay, startOfWeek)
  {
    var ps := [IsCompletedSince(driverId, startOfDay), IsCompletedBy(driverId),
               IsCompletedSince(driverId, startOfWeek)];
    forall k | 0 <= k < 3
      ensures Filter(before + [x] + after, ps[k]) == Filter(before + after, ps[k])
    {
      FilterAppend(before + [x], after, ps[k]);
      FilterAppend(before, [x], ps[k]);
      FilterAppend(before, after, ps[k]);
    }
    assert ps[0] == IsCompletedSince(driverId, startOfDay);
    assert ps[1] == IsCompletedBy(driverId);
    assert ps[2] == IsCompletedSince(driverId, startOfWeek);
  }

  /** One more COMPLETED ride of this driver adds one to the all-time count
      and its distance to the all-time distance. */
  lemma CompletedRideAddsToAllTime(rides: seq<Ride>, x: Ride,
                                   driverId: int, startOfDay: int, startOfWeek: int)
    requires CompletedBy(x, driverId)
    ensures var before := StatsOf(rides, driverId, startOfDay, startOfWeek).allTime;
            var after := StatsOf(rides + [x], driverId, startOfDay, startOfWeek).allTime;
      && after.completedRides == before.completedRides + 1
      && after.totalDistanceKm == before.totalDistanceKm + Distance(x)
  {
    var all := Filter(rides, IsCompletedBy(driverId));
    FilterAppend(rides, [x], IsCompletedBy(driverId));
    assert Filter([x], IsCompletedBy(driverId)) == [x];
    SumDistanceAppend(all, [x]);
  }

  /** With `startOfWeek <= startOfDay`, the day's rides are among the
      week's, which are among all of them: the counts and totals are
      ordered accordingly, and a defined week earning bounds the day's. */
  lemma WindowsNested(rides: seq<Ride>, driverId: int, startOfDay: int, startOfWeek: int)
    requires startOfWeek <= startOfDay
    ensures var today := Filter(rides, IsCompletedSince(driverId, startOfDay));
            var week := Filter(rides, IsCompletedSince(driverId, startOfWeek));
            var all := Filter(rides, IsCompletedBy(driverId));
      && (forall r :: r in today ==> r in week)
      && (forall r :: r in week ==> r in all)
      && |today| <= |week| <= |all|
    ensures var stats := StatsOf(rides, driverId, startOfDay, startOfWeek);
      && stats.today.rides <= stats.allTime.completedRides
      && stats.today.distanceKm <= stats.allTime.totalDistanceKm
      && (stats.week.totalBalance.Some? ==>
            stats.today.earning.Some? && stats.today.earning.value <= stats.week.totalBalance.value)
  {
    var pDay, pWeek, pAll := IsCompletedSince(driverId, startOfDay), IsCompletedSince(driverId, startOfWeek),
                             IsCompletedBy(driverId);
    FilterNarrower(rides, pDay, pWeek);
    FilterNarrower(rides, pWeek, pAll);
    FilterNarrower(rides, pDay, pAll);
    var week := Filter(rides, pWeek);
    var all := Filter(rides, pAll);
    SumDistanceFilter(all, pDay);
    if SumPrice(week).Some? {
      SumPriceFilter(week, pDay);
    }
  }

  /** A driver without completed rides gets zeros, not an error. */
  lemma NoCompletedRidesGiveZeros(rides: seq<Ride>, driverId: int, startOfDay: int, startOfWeek: int)
    requires forall r :: r in rides ==> !CompletedBy(r, driverId)
    ensures StatsOf(rides, driverId, startOfDay, startOfWeek)
            == DriverStats(TodayStats(0, Some(0), 0), AllTimeStats(0, 0), WeekStats(Some(0)))
  {
    var ps := [IsCompletedSince(driverId, startOfDay), IsCompletedBy(driverId),
               IsCompletedSince(driverId, startOfWeek)];
    forall k | 0 <= k < 3 ensures Filter(rides, ps[k]) == [] {
      FilterNone(rides, ps[k]);
    }
    assert ps[0] == IsCompletedSince(driverId, startOfDay);
    assert ps[1] == IsCompletedBy(driverId);
    assert ps[2] == IsCompletedSince(driverId, startOfWeek);
  }

  /** Appending a ride to the table grows a window's selection by that
      ride exactly when the window selects it. */
  lemma {:induction false} AppendToWindow(rides: seq<Ride>, x: Ride, p: Ride -> bool)
    ensures var before := Filter(rides, p);
            var after := Filter(rides + [x], p);
      if p(x) then
        && |after| == |before| + 1
        && SumPrice(after) == AddPrice(SumPrice(before), x.priceNaira)
        && SumDistance(after) == SumDistance(before) + Distance(x)
      else after == before
  {
    var before := Filter(rides, p);
    FilterAppend(rides, [x], p);
    assert Filter([x], p) == if p(x) then [x] else [];
    if p(x) {
      SumPriceAppend(before, [x]);
      SumDistanceAppend(before, [x]);
    } else {
      assert before + [] == before;
    }
  }

  /** One more COMPLETED ride of this driver, created in a window, adds one
      to that window's ride count and its price to that window's earning;
      a ride without a price makes the earning NaN. Outside a window it
      changes nothing there. */
  lemma CompletedRideAddsToEarnings(rides: seq<Ride>, x: Ride,
                                    driverId: int, startOfDay: int, startOfWeek: int)
    requires CompletedBy(x, driverId)
    ensures var before := StatsOf(rides, driverId, startOfDay, startOfWeek);
            var after := StatsOf(rides + [x], driverId, startOfDay, startOfWeek);
      && after.today == (if x.createdAt >= startOfDay
                         then TodayStats(before.today.rides + 1, AddPrice(before.today.earning, x.priceNaira),
                                         before.today.distanceKm + Distance(x))
                         else before.today)
      && after.week.totalBalance == (if x.createdAt >= startOfWeek
                                     then AddPrice(before.week.totalBalance, x.priceNaira)
                                     else before.week.totalBalance)
  {
    AppendToWindow(rides, x, IsCompletedSince(driverId, startOfDay));
    AppendToWindow(rides, x, IsCompletedSince(driverId, startOfWeek));
  }
}
