// The building blocks of a transaction: writing one order row and moving one
// driver, each with what it keeps.
module Transactions {
  import opened Options
  import opened DispatchState
  import opened OrderTable
  import opened DriverLine
  import opened Cascade
  import opened CascadeInv
  import opened Frames

  // ---------------------------------------------------------------- one order

  // A row that commits a driver finds him ready for it.
  ghost predicate SeatReady(db: Db, row: Order)
  {
    match Holder(row)
    case None => true
    case Some(Claim(d, Offer)) =>
      && d in db.drivers && db.drivers[d].status == Online
      && d in db.queue && db.queue[d].status == Offered
      && (row.request.requested != Some(d) ==> db.queue[d].line == Some(StageLine(row)))
    case Some(Claim(d, _)) => d in db.drivers && db.drivers[d].status != Online
  }

  lemma SeatedAfter(db: Db, o: OrderId, row: Order, parked: seq<Parked>)
    requires Seated(db) && SeatReady(db, row)
    ensures Seated(Put(db, o, row).(parked := parked))
  {
    var db' := Put(db, o, row).(parked := parked);
    forall a, d: DriverId | LiveOffer(db'.orders, a, d) ensures SeatedOffer(db', a, d) {
      if a != o { assert LiveOffer(db.orders, a, d); }
    }
    forall a, d: DriverId | a in db'.orders && Works(db'.orders[a], d)
      ensures d in db'.drivers && db'.drivers[d].status != Online
    {
      if a != o { assert Works(db.orders[a], d); }
    }
  }

  lemma WriteKeeps(db: Db, o: OrderId, row: Order, parked: seq<Parked>, e: Option<DriverId>)
    requires InvDuring(db, e) && o in db.orders
    requires RowOk(row) && SeatReady(db, row)
    requires FitsHolder(db.orders, o, row, e) && FitsRoute(db.orders, o, row, e)
    requires NothingLeansOn(db.orders, o, row, e)
    requires ParkedOk(db.orders[o := row], parked)
    ensures InvDuring(Put(db, o, row).(parked := parked), e)
  {
    hide OrdersInv, RosterOk, RowOk, FitsRoute, FitsHolder, NothingLeansOn, Seated, SeatReady;
    UpdateRow(db.orders, o, row, e);
    SeatedAfter(db, o, row, parked);
    QueueInRoster(db);
    RosterStays(db, Put(db, o, row).(parked := parked));
  }

  // A row that ends up committing nobody, without a route offer.
  lemma FreeRow(db: Db, o: OrderId, row: Order, parked: seq<Parked>, e: Option<DriverId>)
    requires InvDuring(db, e) && o in db.orders
    requires RowOk(row) && Holder(row).None? && row.slot == NO_ROUTE_OFFER
    requires Holder(db.orders[o]).Some? && Holder(db.orders[o]).value.kind == Ride
      ==> e == Some(Holder(db.orders[o]).value.driver)
    requires ParkedOk(db.orders[o := row], parked)
    ensures InvDuring(Put(db, o, row).(parked := parked), e)
  {
    hide InvDuring, RowOk, ParkedOk;
    WriteKeeps(db, o, row, parked, e);
  }

  // A driver committed nowhere else takes the order as his ride.
  lemma RideRow(db: Db, o: OrderId, row: Order, d: DriverId, parked: seq<Parked>, e: Option<DriverId>)
    requires InvDuring(db, e) && o in db.orders
    requires RowOk(row) && Owns(row, d, Ride) && row.slot == NO_ROUTE_OFFER
    requires FreeBut(db.orders, d, o)
    requires Holder(db.orders[o]).None? || Holder(db.orders[o]).value.kind != Ride
    requires d in db.drivers && db.drivers[d].status != Online
    requires ParkedOk(db.orders[o := row], parked)
    ensures InvDuring(Put(db, o, row).(parked := parked), e)
  {
    hide InvDuring, RowOk, ParkedOk, FreeBut;
    FreeFits(db.orders, o, row, d);
    WriteKeeps(db, o, row, parked, e);
  }

  // A row rewritten without touching what it commits, offers or is parked under.
  predicate SameCommitment(a: Order, b: Order)
  {
    && b.request == a.request && b.driver == a.driver && b.offered == a.offered && b.reserved == a.reserved
    && b.slot == a.slot && b.fallback == a.fallback
    && b.notes.autoOffersDisabled == a.notes.autoOffersDisabled && b.notes.autoExcluded == a.notes.autoExcluded
    && (a.notes.departed.Some? ==> b.notes.departed.Some?)
    && (b.status == a.status || (Riding(a.status) && Riding(b.status)))
  }

  // A row fits beside the others as it stands.
  lemma OwnFits(db: Db, o: OrderId, e: Option<DriverId>)
    requires InvDuring(db, e) && o in db.orders
    ensures FitsHolder(db.orders, o, db.orders[o], e) && FitsRoute(db.orders, o, db.orders[o], e)
    ensures SeatReady(db, db.orders[o])
  {
    hide RowOk, Compatible, RosterOk, ParkedOk, DistinctPositions;
    var row := db.orders[o];
    if Holder(row).Some? {
      var c := Holder(row).value;
      assert c.kind == Offer ==> LiveOffer(db.orders, o, c.driver);
      assert c.kind != Offer ==> Works(row, c.driver);
      forall a | a in db.orders && a != o ensures Compatible(row, db.orders[a]) { }
      if c.kind == Reservation && e != Some(c.driver) {
        assert Owns(row, c.driver, Reservation);
        assert HasClaim(db.orders, c.driver, Ride);
      }
    }
    if row.slot.driver.Some? && row.slot.driver != e {
      assert OnTrip(db.orders, row);
      SlotIsOpen(row);
    }
  }

  lemma SlotIsOpen(row: Order)
    ensures RowOk(row) && row.slot.driver.Some? ==> Holder(row).None? && !Closed(row.status)
  {
  }

  lemma NoteRow(db: Db, o: OrderId, row: Order, e: Option<DriverId>)
    requires InvDuring(db, e) && o in db.orders && SameCommitment(db.orders[o], row)
    ensures InvDuring(Put(db, o, row), e)
  {
    hide InvDuring, FitsHolder, ParkedOk;
    InvParts(db, e);
    OwnFits(db, o, e);
    NoteFits(db, o, row, e);
    ParkedStays(db, o, row);
    WriteKeeps(db, o, row, db.parked, e);
    assert Put(db, o, row) == Put(db, o, row).(parked := db.parked);
  }

  lemma NoteFits(db: Db, o: OrderId, row: Order, e: Option<DriverId>)
    requires o in db.orders && SameCommitment(db.orders[o], row) && RowOk(db.orders[o])
    requires FitsHolder(db.orders, o, db.orders[o], e) && SeatReady(db, db.orders[o])
    ensures RowOk(row) && FitsHolder(db.orders, o, row, e) && SeatReady(db, row)
    ensures Holder(row) == Holder(db.orders[o])
  {
    forall a | a in db.orders && a != o && Holder(row).Some? ensures Compatible(row, db.orders[a]) {
      assert Compatible(db.orders[o], db.orders[a]);
    }
  }

  lemma ParkedStays(db: Db, o: OrderId, row: Order)
    requires ParkedOk(db.orders, db.parked) && o in db.orders && SameCommitment(db.orders[o], row)
    ensures ParkedOk(db.orders[o := row], db.parked)
  {
  }

  lemma ClosedElsewhere(db: Db, o: OrderId, row: Order)
    requires ParkedOk(db.orders, db.parked) && o in db.orders && db.orders[o].status != Queued
    ensures !IsParked(db.parked, o) && ParkedOk(db.orders[o := row], db.parked)
  {
    if IsParked(db.parked, o) { }
    ParkedElsewhere(db, o, row, db.parked);
  }

  // ---------------------------------------------------------------- one driver

  // Only the row and the flags of driver d moved; a new position is the tail.
  ghost predicate OnlyDriver(db: Db, db': Db, d: DriverId)
  {
    && d in db.drivers && d in db'.drivers
    && db' == db.(drivers := db.drivers[d := db'.drivers[d]], queue := db'.queue)
    && (forall x :: x != d ==> (x in db'.queue <==> x in db.queue))
    && (forall x :: x != d && x in db.queue ==> db'.queue[x] == db.queue[x])
    && (d in db'.queue ==>
          (d in db.queue && db'.queue[d].position == db.queue[d].position)
          || db'.queue[d].position == MaxPosition(db) + 1)
  }

  lemma DriverMoves(db: Db, db': Db, d: DriverId, e: Option<DriverId>)
    requires InvDuring(db, e) && OnlyDriver(db, db', d)
    requires !OfferedTo(db, d)
    requires db'.drivers[d].status == Online ==>
               !HasClaim(db.orders, d, Ride) && !HasClaim(db.orders, d, Reservation)
    ensures InvDuring(db', e)
  {
    hide RowOk, Exclusive, Backed, RoutesOnTrips, OneRouteOfferEach, ParkedOk, MaxPosition;
    forall x | x in db.queue ensures db.queue[x].position <= MaxPosition(db) {
      MaxPositionBounds(db, x);
    }
    assert db'.orders == db.orders;
    forall a, x: DriverId | LiveOffer(db'.orders, a, x) ensures SeatedOffer(db', a, x) {
      assert LiveOffer(db.orders, a, x);
      assert OfferedTo(db, x);
    }
    forall a, x: DriverId | a in db'.orders && Works(db'.orders[a], x)
      ensures x in db'.drivers && db'.drivers[x].status != Online
    {
      assert Works(db.orders[a], x);
      if x == d {
        assert Owns(db.orders[a], d, Ride) || Owns(db.orders[a], d, Reservation);
      }
    }
    forall x | x in db'.queue ensures x in db'.drivers { }
  }

  // ---------------------------------------------------------------- ending

  lemma Open(db: Db, d: DriverId)
    requires Inv(db)
    ensures InvDuring(db, Some(d))
  {
    OpenEnding(db.orders, d);
  }

  lemma Close(db: Db, d: DriverId)
    requires InvDuring(db, Some(d))
    requires HasClaim(db.orders, d, Reservation) ==> HasClaim(db.orders, d, Ride)
    requires forall a :: a in db.orders && db.orders[a].slot.driver == Some(d) ==> OnTrip(db.orders, db.orders[a])
    ensures Inv(db)
  {
    CloseEnding(db.orders, d);
  }
}
