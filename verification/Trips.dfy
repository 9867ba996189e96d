// What hangs on an active ride: the route offers addressed to its driver, and
// the one order he has reserved for afterwards.
module Trips {
  import opened Options
  import opened DispatchState
  import opened OrderTable
  import opened DriverLine
  import opened Cascade
  import opened CascadeInv
  import opened Frames
  import opened PassengerQueue
  import opened Transactions

  // ---------------------------------------------------------------- finding rides

  // The order keeps its driver's menu locked.
  predicate Locks(row: Order, d: DriverId)
  {
    row.driver == Some(d) && (row.status in {Created, Queued, Searching, ChatSearch} || Riding(row.status))
  }

  // The latest order below n that locks driver d.
  function RideBelow(orders: Orders, d: DriverId, n: OrderId): (r: Option<OrderId>)
    ensures r.Some? ==> r.value in orders && Locks(orders[r.value], d)
    ensures r.None? ==> forall a: OrderId :: a < n && a in orders ==> !Locks(orders[a], d)
  {
    if n == 0 then None
    else if n - 1 in orders && Locks(orders[n - 1], d) then Some(n - 1)
    else RideBelow(orders, d, n - 1)
  }

  function RideOf(db: Db, d: DriverId): (r: Option<OrderId>)
    ensures r.Some? ==> r.value in db.orders && Locks(db.orders[r.value], d)
  {
    RideBelow(db.orders, d, db.nextOrder)
  }

  predicate Reserves(row: Order, d: DriverId)
  {
    row.reserved == Some(d) && row.status == ParallelAssigned
  }

  // The earliest order below n reserved by driver d.
  function ReservedBelow(orders: Orders, d: DriverId, n: OrderId): (r: Option<OrderId>)
    ensures r.Some? ==> r.value in orders && Reserves(orders[r.value], d)
    ensures r.None? ==> forall a: OrderId :: a < n && a in orders ==> !Reserves(orders[a], d)
  {
    if n == 0 then None
    else
      var rest := ReservedBelow(orders, d, n - 1);
      if rest.Some? then rest
      else if n - 1 in orders && Reserves(orders[n - 1], d) then Some(n - 1) else None
  }

  function ReservationOf(db: Db, d: DriverId): (r: Option<OrderId>)
    ensures r.Some? ==> r.value in db.orders && Reserves(db.orders[r.value], d)
  {
    ReservedBelow(db.orders, d, db.nextOrder)
  }

  // The menu lock sees exactly the driver's ride.
  lemma RideOfIsRide(db: Db, d: DriverId, e: Option<DriverId>)
    requires InvDuring(db, e)
    ensures RideOf(db, d).Some? ==> Owns(db.orders[RideOf(db, d).value], d, Ride)
    ensures RideOf(db, d).None? <==> !HasClaim(db.orders, d, Ride)
  {
    if RideOf(db, d).Some? { assert RowOk(db.orders[RideOf(db, d).value]); }
    if HasClaim(db.orders, d, Ride) {
      var a :| a in db.orders && Owns(db.orders[a], d, Ride);
      assert a < db.nextOrder;
    }
  }

  lemma ReservationOfIsReservation(db: Db, d: DriverId, e: Option<DriverId>)
    requires InvDuring(db, e)
    ensures ReservationOf(db, d).Some? ==> Owns(db.orders[ReservationOf(db, d).value], d, Reservation)
    ensures ReservationOf(db, d).None? <==> !HasClaim(db.orders, d, Reservation)
  {
    if HasClaim(db.orders, d, Reservation) {
      var a :| a in db.orders && Owns(db.orders[a], d, Reservation);
      assert a < db.nextOrder;
    }
  }

  // ---------------------------------------------------------------- route offers of a trip

  predicate RoutedOn(orders: Orders, a: OrderId, trip: OrderId)
  {
    a in orders && orders[a].slot.driver.Some? && orders[a].slot.trip == Some(trip)
  }

  function Routed(orders: Orders, trip: OrderId, n: OrderId): (r: seq<OrderId>)
    ensures forall a: OrderId :: a in r <==> a < n && RoutedOn(orders, a, trip)
    ensures forall i :: 0 <= i < |r| ==> r[i] < n
    ensures forall i, j :: 0 <= i < j < |r| ==> r[i] < r[j]
  {
    if n == 0 then []
    else if RoutedOn(orders, n - 1, trip) then Routed(orders, trip, n - 1) + [n - 1]
    else Routed(orders, trip, n - 1)
  }

  function ReleaseEach(db: Db, rows: seq<OrderId>, env: Env, depth: nat): (r: Outcome)
    ensures r.db.orders.Keys == db.orders.Keys
    decreases |rows|
  {
    if rows == [] then Done(db, false)
    else if rows[0] !in db.orders then ReleaseEach(db, rows[1..], env, depth)
    else
      var o := rows[0];
      var cleared := Put(db, o, ClearRoute(db.orders[o]));
      if !Candidate(db.orders[o].status) then ReleaseEach(cleared, rows[1..], env, depth)
      else
        match Fallback(cleared, o, false, env, depth)
        case TooDeep(r) => TooDeep(r)
        case Done(r, _) => ReleaseEach(r, rows[1..], env, depth)
  }

  // Close every route offer tied to a trip and hand the orders on.
  function ReleaseRouteOffers(db: Db, trip: OrderId, env: Env, depth: nat): (r: Outcome)
    ensures r.db.orders.Keys == db.orders.Keys
  {
    ReleaseEach(db, Routed(db.orders, trip, db.nextOrder), env, depth)
  }

  // No live route offer names this trip.
  ghost predicate NoRouteOn(orders: Orders, trip: OrderId)
  {
    forall a: OrderId :: !RoutedOn(orders, a, trip)
  }

  // Route offers may be closed, none is opened or readdressed.
  ghost predicate SlotsOnlyClose(orders: Orders, orders': Orders)
  {
    forall a :: a in orders && a in orders' && orders'[a].slot.driver.Some? ==> orders'[a].slot == orders[a].slot
  }

  lemma {:induction false} ReleaseEachKeeps(db: Db, rows: seq<OrderId>, trip: OrderId, env: Env, depth: nat,
                                            e: Option<DriverId>)
    requires InvDuring(db, e)
    requires forall a :: a in rows ==> a in db.orders && db.orders[a].slot.driver.Some?
    requires forall i, j :: 0 <= i < j < |rows| ==> rows[i] < rows[j]
    requires forall a: OrderId :: RoutedOn(db.orders, a, trip) ==> a in rows
    ensures var r := ReleaseEach(db, rows, env, depth);
      InvDuring(r.db, e) && Calm(db, r.db) && SlotsOnlyClose(db.orders, r.db.orders)
      && (r.Done? ==> NoRouteOn(r.db.orders, trip))
    decreases |rows|
  {
    hide InvDuring, Calm, Moves, Fallback;
    CalmRefl(db);
    if rows != [] {
      var o := rows[0];
      assert o in rows;
      var cleared := Put(db, o, ClearRoute(db.orders[o]));
      var f := Fallback(cleared, o, false, env, depth);
      ReleaseOne(db, o, env, depth, e);
      if f.Done? {
        RestRouted(db, f.db, rows, trip);
        ReleaseEachKeeps(f.db, rows[1..], trip, env, depth, e);
        CalmTrans(db, f.db, ReleaseEach(f.db, rows[1..], env, depth).db);
      }
    }
  }

  // The rows still to be released.
  lemma RestRouted(db: Db, r: Db, rows: seq<OrderId>, trip: OrderId)
    requires rows != [] && (forall i, j :: 0 <= i < j < |rows| ==> rows[i] < rows[j])
    requires forall a :: a in rows ==> a in db.orders && db.orders[a].slot.driver.Some?
    requires forall a: OrderId :: RoutedOn(db.orders, a, trip) ==> a in rows
    requires r.orders.Keys == db.orders.Keys && rows[0] in r.orders && r.orders[rows[0]].slot.driver.None?
    requires forall a :: a in db.orders && a != rows[0] ==> r.orders[a] == db.orders[a]
    ensures forall a :: a in rows[1..] ==> a in r.orders && r.orders[a].slot.driver.Some?
    ensures forall a: OrderId :: RoutedOn(r.orders, a, trip) ==> a in rows[1..]
  {
    assert rows == [rows[0]] + rows[1..];
    forall a | a in rows[1..] ensures a in r.orders && a != rows[0] && r.orders[a] == db.orders[a] {
      var i :| 0 <= i < |rows| - 1 && rows[1..][i] == a;
      assert rows[0] < rows[i + 1];
      assert a in rows;
    }
    forall a: OrderId | RoutedOn(r.orders, a, trip) ensures a in rows[1..] {
      assert a != rows[0] && r.orders[a] == db.orders[a];
      assert RoutedOn(db.orders, a, trip);
    }
  }

  lemma ReleaseOne(db: Db, o: OrderId, env: Env, depth: nat, e: Option<DriverId>)
    requires InvDuring(db, e) && o in db.orders && db.orders[o].slot.driver.Some?
    ensures Candidate(db.orders[o].status)
    ensures var cleared := Put(db, o, ClearRoute(db.orders[o]));
      var r := Fallback(cleared, o, false, env, depth).db;
      && InvDuring(r, e) && Calm(db, r)
      && o in r.orders && r.orders[o].slot.driver.None? && r.orders[o].fallback
      && (forall a :: a in db.orders && a != o ==> r.orders[a] == db.orders[a])
  {
    hide InvDuring, Moves, Calm, Fallback, ParkedOk;
    InvParts(db, e);
    SlotIsOpen(db.orders[o]);
    var row := ClearRoute(db.orders[o]);
    var cleared := Put(db, o, row);
    ParkedSame(db, o, row);
    PutKeeps(db, o, row, db.parked, e);
    assert cleared == Put(db, o, row).(parked := db.parked);
    KeptCalm(db, cleared, o, e);
    FallbackKeeps(cleared, o, false, env, depth, e);
    KeptCalm(cleared, Fallback(cleared, o, false, env, depth).db, o, e);
    CalmTrans(db, cleared, Fallback(cleared, o, false, env, depth).db);
    FallbackFlags(cleared, o, env, depth, e);
    OthersStand(cleared, Fallback(cleared, o, false, env, depth).db, o);
  }

  // Falling back without a second look at the village leaves the flag set for
  // good, and with it no route offer.
  lemma FallbackFlags(db: Db, o: OrderId, env: Env, depth: nat, e: Option<DriverId>)
    requires InvDuring(db, e) && o in db.orders
    requires Candidate(db.orders[o].status) && db.orders[o].driver.None? && db.orders[o].reserved.None?
    ensures var r := Fallback(db, o, false, env, depth).db;
      o in r.orders && r.orders[o].fallback && r.orders[o].slot.driver.None?
  {
    hide InvDuring, EnterFallback, Parking, OfferToNextDriver, HasWaiting, Unparked, Repair;
    var p := Parking(db, o);
    ParkingKeeps(db, o, e);
    var r := EnterFallback(p, o, env, depth).db;
    FlagFirst(p, o, env, depth, e);
    EnterFallbackKeeps(p, o, env, depth, e);
    InvParts(r, e);
    assert RowOk(r.orders[o]);
  }

  lemma FlagFirst(db: Db, o: OrderId, env: Env, depth: nat, e: Option<DriverId>)
    requires InvDuring(db, e) && o in db.orders
    requires db.orders[o].status == Queued && db.orders[o].slot.driver.None?
    ensures var r := EnterFallback(db, o, env, depth).db; o in r.orders && r.orders[o].fallback
  {
    hide OrdersInv, InvDuring, Moves, Repair, OfferToNextDriver, HasWaiting, Unparked;
    var row := db.orders[o].(fallback := true);
    var f := Put(db, o, row);
    RepairFrame(f);
    InvParts(db, e);
    ParkedElsewhere(db, o, row, db.parked);
    PutKeeps(db, o, row, db.parked, e);
    assert f == Put(db, o, row).(parked := db.parked);
    if HasWaiting(f, Gorno, {}) {
      StaysPut(f, o);
      UnparkThenOffer(f, f, o, Gorno, env, depth, e);
      MovesKeepFlag(f, OfferToNextDriver(Unparked(Repair(f), o), o, {}, Some(Gorno), env, depth).db, o);
    }
  }

  lemma MovesKeepFlag(db: Db, r: Db, o: OrderId)
    requires Moves(db, r, o)
    ensures o in r.orders && (db.orders[o].fallback ==> r.orders[o].fallback)
  {
  }

  // When a trip is over nothing names it any more.
  lemma ReleaseKeeps(db: Db, trip: OrderId, env: Env, depth: nat, e: Option<DriverId>)
    requires InvDuring(db, e)
    ensures var r := ReleaseRouteOffers(db, trip, env, depth);
      InvDuring(r.db, e) && Calm(db, r.db) && SlotsOnlyClose(db.orders, r.db.orders)
      && (r.Done? ==> NoRouteOn(r.db.orders, trip))
  {
    var rows := Routed(db.orders, trip, db.nextOrder);
    assert RosterOk(db);
    ReleaseEachKeeps(db, rows, trip, env, depth, e);
  }
}
