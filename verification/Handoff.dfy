// How a ride ends: its route offers are closed, and the order its driver had
// reserved either becomes his ride or goes back to the unassigned pool.
module Handoff {
  import opened Options
  import opened DispatchState
  import opened OrderTable
  import opened DriverLine
  import opened Cascade
  import opened CascadeInv
  import opened Frames
  import opened PassengerQueue
  import opened Transactions
  import opened Trips

  // ---------------------------------------------------------------- pieces

  function WithDeparture(notes: Notes, now: nat): Notes { notes.(departed := Some(now)) }

  // The reserved order becomes the driver's ride.
  function Promoted(row: Order, d: DriverId, now: nat): Order
  {
    row.(status := Assigned, driver := Some(d), reserved := None, etaChosen := false,
         notes := WithDeparture(row.notes, now))
  }

  function Promote(db: Db, d: DriverId, env: Env): Db
  {
    match ReservationOf(db, d)
    case None => db
    case Some(r) => Put(db, r, Promoted(db.orders[r], d, env.now))
  }

  function Unreserved(row: Order): Order
  {
    row.(status := Queued, driver := None, reserved := None, etaChosen := false)
  }

  // A reserved order goes back to the passenger queue.
  function Repark(db: Db, o: OrderId): (r: Db)
    requires o in db.orders
    ensures r.orders.Keys == db.orders.Keys
  {
    var q := Enqueue(Put(db, o, Unreserved(db.orders[o])), o);
    q.(parked := SetPark(q.parked, o, ParkWaiting))
  }

  function ReleaseReservation(db: Db, o: OrderId, env: Env, depth: nat): Outcome
    requires o in db.orders
  {
    TryPromote(Repark(db, o), env, depth)
  }

  // Close the row of a ride together with the route offers of the trip.
  function EndRide(db: Db, o: OrderId, row: Order, env: Env, depth: nat): (r: Outcome)
    requires o in db.orders
    ensures r.db.orders.Keys == db.orders.Keys
  {
    ReleaseRouteOffers(Put(db, o, row), o, env, depth)
  }

  ghost predicate NoSlotOf(orders: Orders, d: DriverId)
  {
    forall a :: a in orders ==> orders[a].slot.driver != Some(d)
  }

  // ---------------------------------------------------------------- the ride is over

  // The driver's ride is closed and nothing of the trip is left but, perhaps,
  // the order he has reserved.
  ghost predicate Ended(db: Db, r: Db, d: DriverId)
  {
    && InvDuring(r, Some(d)) && Lawful(db, r)
    && !HasClaim(r.orders, d, Ride) && NoSlotOf(r.orders, d) && !OfferedTo(r, d)
    && r.drivers == db.drivers && d in r.drivers && r.drivers[d].status != Online
    && r.nextOrder == db.nextOrder
    && (forall a :: a in db.orders && Owns(db.orders[a], d, Reservation) ==>
          a in r.orders && r.orders[a] == db.orders[a])
    && (forall a :: a in r.orders && Owns(r.orders[a], d, Reservation) ==>
          a in db.orders && Owns(db.orders[a], d, Reservation))
  }

  // A slot of driver d belongs to his one ride.
  lemma SlotsOnRide(db: Db, o: OrderId, d: DriverId)
    requires Inv(db) && o in db.orders && Owns(db.orders[o], d, Ride)
    ensures forall a :: a in db.orders && db.orders[a].slot.driver == Some(d) ==> db.orders[a].slot.trip == Some(o)
    ensures forall a :: a in db.orders && Owns(db.orders[a], d, Ride) ==> a == o
    ensures !OfferedTo(db, d) && d in db.drivers && db.drivers[d].status != Online
  {
    hide RowOk, RosterOk, ParkedOk, DistinctPositions;
    forall a | a in db.orders && db.orders[a].slot.driver == Some(d) ensures db.orders[a].slot.trip == Some(o) {
      assert OnTrip(db.orders, db.orders[a]);
      AtMostOneEach(db.orders, o, db.orders[a].slot.trip.value, d, Ride);
    }
    forall a | a in db.orders && Owns(db.orders[a], d, Ride) ensures a == o {
      AtMostOneEach(db.orders, o, a, d, Ride);
    }
    assert Works(db.orders[o], d);
    NotOffered(db, d, None);
  }

  // Whoever is not online has no offer in front of him.
  lemma NotOffered(db: Db, d: DriverId, e: Option<DriverId>)
    requires InvDuring(db, e)
    requires d !in db.drivers || db.drivers[d].status != Online
    ensures !OfferedTo(db, d)
  {
    if OfferedTo(db, d) { OfferedIsOnline(db, d, e); }
  }

  lemma OfferedIsOnline(db: Db, d: DriverId, e: Option<DriverId>)
    requires InvDuring(db, e) && OfferedTo(db, d)
    ensures d in db.drivers && db.drivers[d].status == Online
  {
    var a :| a in db.orders && LiveOffer(db.orders, a, d);
    assert SeatedOffer(db, a, d);
  }

  lemma RowParts(db: Db, o: OrderId, e: Option<DriverId>)
    requires InvDuring(db, e) && o in db.orders
    ensures RowOk(db.orders[o]) && OrdersInv(db.orders, e) && ParkedOk(db.orders, db.parked)
  {
  }

  ghost predicate ClosedRow(a: Order, b: Order)
  {
    RowOk(b) && Closed(b.status) && Holder(b).None? && b.slot == NO_ROUTE_OFFER && RowLaw(a, b)
  }

  lemma EndRideKeeps(db: Db, o: OrderId, row: Order, d: DriverId, env: Env, depth: nat)
    requires Inv(db) && o in db.orders && Owns(db.orders[o], d, Ride)
    requires ClosedRow(db.orders[o], row)
    ensures var r := EndRide(db, o, row, env, depth);
      r.Done? ==> Ended(db, r.db, d) && r.db.orders[o] == row
  {
    hide InvDuring, Calm, Lawful, RowLaw, ReleaseRouteOffers, Inv;
    var mid := Put(db, o, row);
    RideCloses(db, o, row, d);
    var r := ReleaseRouteOffers(mid, o, env, depth);
    ReleaseKeeps(mid, o, env, depth, Some(d));
    if r.Done? {
      EndedAfter(db, mid, r.db, o, row, d);
    }
  }

  // The row of the ride alone.
  lemma RideCloses(db: Db, o: OrderId, row: Order, d: DriverId)
    requires Inv(db) && o in db.orders && Owns(db.orders[o], d, Ride)
    requires ClosedRow(db.orders[o], row)
    ensures var mid := Put(db, o, row);
      && InvDuring(mid, Some(d)) && Lawful(db, mid)
      && !HasClaim(mid.orders, d, Ride)
      && (forall a :: a in mid.orders && mid.orders[a].slot.driver == Some(d) ==> mid.orders[a].slot.trip == Some(o))
  {
    hide InvDuring, ParkedOk, RowOk, RowLaw, Lawful, HasClaim, OrdersInv;
    Open(db, d);
    SlotsOnRide(db, o, d);
    RowParts(db, o, Some(d));
    ClosedElsewhere(db, o, row);
    FreeRow(db, o, row, db.parked, Some(d));
    assert Put(db, o, row) == Put(db, o, row).(parked := db.parked);
    LawfulRefl(db);
    LawfulPut(db, db, o, row, Put(db, o, row));
    NoRideLeft(db.orders, o, row, d);
  }

  lemma NoRideLeft(orders: Orders, o: OrderId, row: Order, d: DriverId)
    requires forall a :: a in orders && Owns(orders[a], d, Ride) ==> a == o
    requires Holder(row).None?
    ensures !HasClaim(orders[o := row], d, Ride)
  {
    var t := orders[o := row];
    forall a | a in t ensures !Owns(t[a], d, Ride) { }
  }

  lemma EndedAfter(db: Db, mid: Db, r: Db, o: OrderId, row: Order, d: DriverId)
    requires Inv(db) && o in db.orders && Owns(db.orders[o], d, Ride)
    requires ClosedRow(db.orders[o], row) && mid == Put(db, o, row)
    requires InvDuring(mid, Some(d)) && Lawful(db, mid) && !HasClaim(mid.orders, d, Ride)
    requires forall a :: a in mid.orders && mid.orders[a].slot.driver == Some(d) ==> mid.orders[a].slot.trip == Some(o)
    requires InvDuring(r, Some(d)) && Calm(mid, r) && SlotsOnlyClose(mid.orders, r.orders) && NoRouteOn(r.orders, o)
    ensures Ended(db, r, d) && r.orders[o] == row
  {
    hide InvDuring, Lawful, RowLaw, Inv, Calm, RowOk;
    SlotsOnRide(db, o, d);
    LawfulCalm(db, mid, r);
    RideStaysClosed(mid, r, d, Some(d));
    assert r.drivers == db.drivers && r.nextOrder == db.nextOrder by { CalmFrame(mid, r); }
    NotOffered(r, d, Some(d));
    NoSlotLeft(mid, r, o, d);
    assert r.orders[o] == row by { CalmRow(mid, r, o); }
    forall a | a in db.orders && Owns(db.orders[a], d, Reservation)
      ensures a in r.orders && r.orders[a] == db.orders[a]
    {
      CalmRow(mid, r, a);
    }
    forall a | a in r.orders && Owns(r.orders[a], d, Reservation)
      ensures a in db.orders && Owns(db.orders[a], d, Reservation)
    {
      ReservationStood(mid, r, a, d, Some(d));
    }
  }

  lemma CalmFrame(db: Db, r: Db)
    requires Calm(db, r)
    ensures r.drivers == db.drivers && r.nextOrder == db.nextOrder && r.orders.Keys == db.orders.Keys
    ensures r.roster == db.roster && r.lines == db.lines && r.holds == db.holds && r.nextHold == db.nextHold
  {
  }

  lemma CalmRow(db: Db, r: Db, a: OrderId)
    requires Calm(db, r) && a in db.orders
    ensures a in r.orders && RowCalm(db.orders[a], r.orders[a])
  {
  }

  lemma RideStaysClosed(db: Db, r: Db, d: DriverId, e: Option<DriverId>)
    requires InvDuring(db, e) && Calm(db, r) && !HasClaim(db.orders, d, Ride)
    ensures !HasClaim(r.orders, d, Ride)
  {
    InvParts(db, e);
    CalmClaims(db, r, d, Ride);
  }

  lemma ReservationStood(db: Db, r: Db, a: OrderId, d: DriverId, e: Option<DriverId>)
    requires InvDuring(db, e) && Calm(db, r) && a in r.orders && Owns(r.orders[a], d, Reservation)
    ensures a in db.orders && Owns(db.orders[a], d, Reservation)
  {
    InvParts(db, e);
  }

  lemma NoSlotLeft(mid: Db, r: Db, o: OrderId, d: DriverId)
    requires Calm(mid, r) && SlotsOnlyClose(mid.orders, r.orders) && NoRouteOn(r.orders, o)
    requires forall a :: a in mid.orders && mid.orders[a].slot.driver == Some(d) ==> mid.orders[a].slot.trip == Some(o)
    ensures NoSlotOf(r.orders, d)
  {
    forall a | a in r.orders ensures r.orders[a].slot.driver != Some(d) {
      assert !RoutedOn(r.orders, a, o);
    }
  }

  // ---------------------------------------------------------------- handing over

  // Nothing is left behind an ended ride: the reservation of `db`, if there was
  // one, is the driver's one ride now.
  ghost predicate HandedOver(db: Db, r: Db, d: DriverId)
  {
    && !HasClaim(r.orders, d, Reservation)
    && (forall a :: a in db.orders && Owns(db.orders[a], d, Reservation) ==>
          a in r.orders && Owns(r.orders[a], d, Ride))
  }

  // ... or it is back in the unassigned pool.
  ghost predicate GivenBack(db: Db, r: Db, d: DriverId)
  {
    && !HasClaim(r.orders, d, Reservation) && !HasClaim(r.orders, d, Ride)
    && (forall a :: a in db.orders && Owns(db.orders[a], d, Reservation) ==>
          a in r.orders && r.orders[a].driver.None? && r.orders[a].reserved.None? && !Closed(r.orders[a].status))
  }

  lemma PromoteCloses(db: Db, r: Db, d: DriverId, env: Env)
    requires InvDuring(r, Some(d)) && Lawful(db, r) && !HasClaim(r.orders, d, Ride) && NoSlotOf(r.orders, d)
    requires d in r.drivers && r.drivers[d].status != Online
    requires ReservationOf(r, d).Some?
    ensures var p := Promote(r, d, env);
      && Inv(p) && Lawful(db, p) && !HasClaim(p.orders, d, Reservation)
      && (forall a :: a in r.orders && Owns(r.orders[a], d, Reservation) ==>
            a in p.orders && Owns(p.orders[a], d, Ride))
  {
    hide InvDuring, Inv, RowOk, ParkedOk, RowLaw, OrdersInv, Lawful, FreeBut;
    ReservationOfIsReservation(r, d, Some(d));
    var o := ReservationOf(r, d).value;
    var row := Promoted(r.orders[o], d, env.now);
    var p := Promote(r, d, env);
    RowParts(r, o, Some(d));
    PromotedRow(r.orders[o], d, env.now);
    OnlyReservation(r, o, d);
    ClosedElsewhere(r, o, row);
    RideRow(r, o, row, d, r.parked, Some(d));
    assert p == Put(r, o, row).(parked := r.parked);
    assert p.orders[o] == row && Owns(p.orders[o], d, Ride);
    assert HasClaim(p.orders, d, Ride);
    NoSlotAfter(r.orders, o, row, d);
    Close(p, d);
    LawfulAgain(db, r, o, row);
  }

  lemma NoSlotAfter(orders: Orders, o: OrderId, row: Order, d: DriverId)
    requires NoSlotOf(orders, d) && row.slot == NO_ROUTE_OFFER
    ensures NoSlotOf(orders[o := row], d)
  {
  }

  // A lawful stretch, then a lawful rewrite that keeps the row's driver as it is
  // or lets him go.
  lemma LawfulAgain(db: Db, r: Db, o: OrderId, row: Order)
    requires Lawful(db, r) && o in r.orders && RowLaw(r.orders[o], row)
    requires row.driver == r.orders[o].driver || row.driver.None?
    ensures Lawful(db, Put(r, o, row))
  {
    if o in db.orders { assert RowLaw(db.orders[o], r.orders[o]); }
  }

  lemma PromotedRow(row: Order, d: DriverId, now: nat)
    requires RowOk(row) && Owns(row, d, Reservation)
    ensures RowOk(Promoted(row, d, now)) && Owns(Promoted(row, d, now), d, Ride) && row.status == ParallelAssigned
    ensures Promoted(row, d, now).slot == NO_ROUTE_OFFER && RowLaw(row, Promoted(row, d, now))
  {
  }

  // With the ride gone, the reservation is the driver's only commitment.
  lemma OnlyReservation(r: Db, o: OrderId, d: DriverId)
    requires OrdersInv(r.orders, Some(d)) && o in r.orders && Owns(r.orders[o], d, Reservation)
    requires !HasClaim(r.orders, d, Ride)
    ensures FreeBut(r.orders, d, o)
    ensures forall a :: a in r.orders && Owns(r.orders[a], d, Reservation) ==> a == o
  {
    forall a | a in r.orders && a != o && Holder(r.orders[a]).Some? ensures Holder(r.orders[a]).value.driver != d {
      assert Compatible(r.orders[o], r.orders[a]);
      assert !Owns(r.orders[a], d, Ride);
    }
  }

  // Without a reservation the ended driver simply becomes free in some way.
  lemma IdleCloses(db: Db, r: Db, r': Db, d: DriverId)
    requires Ended(db, r, d) && ReservationOf(r, d).None? && OnlyDriver(r, r', d)
    ensures Inv(r') && Lawful(db, r') && HandedOver(db, r', d)
  {
    hide InvDuring, Lawful, OnlyDriver;
    ReservationOfIsReservation(r, d, Some(d));
    DriverMoves(r, r', d, Some(d));
    SameOrders(r, r', d);
    Close(r', d);
    assert Lawful(db, r') by { LawfulSame(db, r, r'); }
  }

  lemma SameOrders(db: Db, db': Db, d: DriverId)
    requires OnlyDriver(db, db', d)
    ensures db'.orders == db.orders && db'.nextOrder == db.nextOrder && db'.parked == db.parked
    ensures forall x :: x != d && x in db.drivers ==> db'.drivers[x] == db.drivers[x]
  {
  }

  lemma LawfulSame(db: Db, r: Db, r': Db)
    requires Lawful(db, r) && r'.orders == r.orders
    ensures Lawful(db, r')
  {
  }

  // Moving the ended driver first, then promoting.
  lemma EndedMoves(db: Db, r: Db, r': Db, d: DriverId)
    requires Ended(db, r, d) && OnlyDriver(r, r', d) && r'.drivers[d].status != Online
    ensures InvDuring(r', Some(d)) && Lawful(db, r') && NoSlotOf(r'.orders, d)
    ensures r'.orders == r.orders && r'.nextOrder == r.nextOrder && !OfferedTo(r', d)
  {
    hide InvDuring, Lawful, OnlyDriver;
    DriverMoves(r, r', d, Some(d));
    SameOrders(r, r', d);
    LawfulSame(db, r, r');
    NotOffered(r', d, Some(d));
  }

  // ---------------------------------------------------------------- giving back

  lemma ReparkKeeps(db: Db, o: OrderId, d: DriverId, e: Option<DriverId>)
    requires InvDuring(db, e) && o in db.orders && Owns(db.orders[o], d, Reservation)
    ensures InvDuring(Repark(db, o), e) && Lawful(db, Repark(db, o))
    ensures Repark(db, o).orders == db.orders[o := Unreserved(db.orders[o])]
    ensures Repark(db, o).drivers == db.drivers && Repark(db, o).nextOrder == db.nextOrder
  {
    hide InvDuring, ParkedOk, RowLaw, SetPark, RowOk, OrdersInv, Enqueue, Lawful, Moves;
    RowParts(db, o, e);
    var row := Unreserved(db.orders[o]);
    var mid := Put(db, o, row);
    UnreservedRow(db.orders[o], d);
    ClosedElsewhere(db, o, row);
    FreeRow(db, o, row, db.parked, e);
    assert mid == Put(db, o, row).(parked := db.parked);
    EnqueueAnyKeeps(mid, o, e);
    var q := Enqueue(mid, o);
    SetParkKeeps(q, o, ParkWaiting, e);
    assert q.orders == mid.orders && q.drivers == db.drivers && q.nextOrder == db.nextOrder by {
      MovesOrders(mid, q, o);
    }
    assert Repark(db, o) == q.(parked := SetPark(q.parked, o, ParkWaiting));
    LawfulRefl(db);
    LawfulPut(db, db, o, row, Repark(db, o));
  }

  lemma MovesOrders(db: Db, r: Db, o: OrderId)
    requires Moves(db, r, o) && r.orders[o] == db.orders[o]
    ensures r.orders == db.orders && r.drivers == db.drivers && r.nextOrder == db.nextOrder
  {
  }

  lemma UnreservedRow(row: Order, d: DriverId)
    requires RowOk(row) && Owns(row, d, Reservation)
    ensures RowOk(Unreserved(row)) && Holder(Unreserved(row)).None? && Unreserved(row).slot == NO_ROUTE_OFFER
    ensures row.status == ParallelAssigned && RowLaw(row, Unreserved(row))
    ensures Unreserved(row).offered.None? && Unreserved(row).driver.None?
  {
  }
}
