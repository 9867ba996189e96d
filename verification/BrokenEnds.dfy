// The ends of a ride that are sound only under a condition: a broken car, a
// refused delivery price and a chat claim that is no longer wanted.
module BrokenEnds {
  import opened Options
  import opened DispatchState
  import opened OrderTable
  import opened DriverLine
  import opened Cascade
  import opened CascadeInv
  import opened Frames
  import opened PassengerQueue
  import opened Transactions
  import opened Trips
  import opened Handoff
  import opened OfferSteps
  import opened ClaimSteps
  import opened RouteSteps
  import opened TripSteps
  import opened TripSafety
  import opened CancelSafety

  // ---------------------------------------------------------------- a broken car

  // Giving the reservation back runs the opportunity check while the broken ride
  // still looks like a trip; no order may come back to this driver by it.
  ghost predicate NoCardComesBack(db: Db, d: DriverId, env: Env, depth: nat)
  {
    RideOf(db, d).Some? ==>
      var r := ReleaseRouteOffers(db, RideOf(db, d).value, env, depth);
      var g := GiveBack(r.db, d, env, depth);
      r.Done? && g.Done? ==> NoSlotOf(g.db.orders, d)
  }

  // The trip as it stands once the reservation is back in the pool.
  ghost predicate Stripped(db: Db, r: Db, o: OrderId, d: DriverId)
  {
    && InvDuring(r, Some(d)) && Lawful(db, r) && !HasClaim(r.orders, d, Reservation)
    && o in db.orders && o in r.orders && r.orders[o] == db.orders[o] && Owns(r.orders[o], d, Ride)
    && (forall a :: a in r.orders && Owns(r.orders[a], d, Ride) ==> a == o)
    && r.drivers == db.drivers && d in r.drivers && r.drivers[d].status != Online
    && (forall a :: a in db.orders && Owns(db.orders[a], d, Reservation) ==> a in r.orders && InPool(r.orders[a]))
  }

  predicate InPool(row: Order)
  {
    row.driver.None? && row.reserved.None? && !Closed(row.status)
  }

  lemma GiveBackStrips(db: Db, r: Db, o: OrderId, d: DriverId, env: Env, depth: nat)
    requires Released(db, r, o, d)
    ensures var g := GiveBack(r, d, env, depth);
      Stripped(db, g.db, o, d) && (ReservationOf(r, d).None? ==> g == Done(r, false))
  {
    hide Stripped, Released, ReleaseReservation;
    var res := ReservationOf(r, d);
    if res.Some? {
      ReservationStrips(db, r, o, res.value, d, env, depth);
    } else {
      NothingStrips(db, r, o, d);
    }
  }

  lemma NothingStrips(db: Db, r: Db, o: OrderId, d: DriverId)
    requires Released(db, r, o, d) && ReservationOf(r, d).None?
    ensures Stripped(db, r, o, d)
  {
    hide InvDuring, Lawful;
    ReservationOfIsReservation(r, d, Some(d));
    forall a | a in db.orders ensures !Owns(db.orders[a], d, Reservation) {
      assert a in r.orders ==> !Owns(r.orders[a], d, Reservation);
    }
  }

  lemma ReservationStrips(db: Db, r: Db, o: OrderId, a: OrderId, d: DriverId, env: Env, depth: nat)
    requires Released(db, r, o, d) && a in r.orders && ReservationOf(r, d) == Some(a)
    ensures Stripped(db, ReleaseReservation(r, a, env, depth).db, o, d)
  {
    hide InvDuring, Lawful, Calm, RowLaw, Repark, TryPromote, InPool, ReservationOf, HasClaim;
    ReservationOfIsReservation(r, d, Some(d));
    var back := Repark(r, a);
    ReparkKeeps(r, a, d, Some(d));
    TryPromoteKeeps(back, env, depth, Some(d));
    var g := TryPromote(back, env, depth).db;
    LawfulTwice(db, r, back, a, d);
    LawfulCalm(db, back, g);
    CalmFrame(back, g);
    OneReservation(r, a, d);
    StripFacts(r, back, g, a, o, d);
    forall x | x in db.orders && Owns(db.orders[x], d, Reservation) ensures x in g.orders && InPool(g.orders[x]) {
      assert r.orders[x] == db.orders[x];
      assert x == a;
    }
  }

  // Under the invariant a driver has one reservation at most.
  lemma OneReservation(r: Db, a: OrderId, d: DriverId)
    requires InvDuring(r, Some(d)) && a in r.orders && Owns(r.orders[a], d, Reservation)
    ensures forall x :: x in r.orders && Owns(r.orders[x], d, Reservation) ==> x == a
  {
    forall x | x in r.orders && Owns(r.orders[x], d, Reservation) ensures x == a {
      assert x == a || Compatible(r.orders[x], r.orders[a]);
    }
  }

  lemma LawfulTwice(db: Db, r: Db, back: Db, a: OrderId, d: DriverId)
    requires Lawful(db, r) && a in r.orders && Owns(r.orders[a], d, Reservation)
    requires back.orders == r.orders[a := Unreserved(r.orders[a])]
    ensures Lawful(db, back)
  {
    if a in db.orders { assert RowLaw(db.orders[a], r.orders[a]); }
  }

  lemma StripFacts(r: Db, back: Db, g: Db, a: OrderId, o: OrderId, d: DriverId)
    requires InvDuring(back, Some(d)) && Calm(back, g)
    requires a in r.orders && Owns(r.orders[a], d, Reservation) && back.orders == r.orders[a := Unreserved(r.orders[a])]
    requires forall x :: x in r.orders && Owns(r.orders[x], d, Reservation) ==> x == a
    requires o in r.orders && Owns(r.orders[o], d, Ride)
    requires (forall x :: x in r.orders && Owns(r.orders[x], d, Ride) ==> x == o)
    ensures !HasClaim(g.orders, d, Reservation)
    ensures o in g.orders && g.orders[o] == r.orders[o]
    ensures forall x :: x in g.orders && Owns(g.orders[x], d, Ride) ==> x == o
    ensures a in g.orders && InPool(g.orders[a])
  {
    hide InvDuring, Calm, RowLaw;
    assert a != o;
    CalmRow(back, g, o);
    CalmRow(back, g, a);
    forall x, k: Kind | x in g.orders && Owns(g.orders[x], d, k) && k != Offer ensures k == Ride && x == o {
      WorkStood(back, g, x, d, k, Some(d));
    }
  }

  // A broken car hands the ride and the reservation back, provided no automatic
  // offer has come back to its driver on the way.
  lemma CarFailureSound(db: Db, d: DriverId, env: Env, depth: nat)
    requires Inv(db) && NoCardComesBack(db, d, env, depth)
    ensures Sound(db, DriverCancel(db, d, CarBroken, env, depth))
    ensures var r := DriverCancel(db, d, CarBroken, env, depth);
      r.Done? && HasClaim(db.orders, d, Ride) ==> GivenBack(db, r.db, d)
  {
    hide InvDuring, Lawful, RideOf, ReleaseRouteOffers, Released, CarFailure, GivenBack, GiveBack;
    LawfulRefl(db);
    RideOfIsRide(db, d, None);
    if RideOf(db, d).Some? {
      var o := RideOf(db, d).value;
      RiderKnown(db, o, d);
      ReleaseFirstKeeps(db, o, d, env, depth);
      var r := ReleaseRouteOffers(db, o, env, depth);
      if r.Done? {
        ReleasedRow(db, r.db, o, d);
        CarSound(db, r.db, o, d, env, depth);
      }
    }
  }

  lemma CarSound(db: Db, r: Db, o: OrderId, d: DriverId, env: Env, depth: nat)
    requires Inv(db) && Released(db, r, o, d) && o in r.orders && d in r.drivers
    requires GiveBack(r, d, env, depth).Done? ==> NoSlotOf(GiveBack(r, d, env, depth).db.orders, d)
    ensures var c := CarFailure(r, o, d, env, depth);
      Sound(db, c) && (c.Done? ==> GivenBack(db, c.db, d))
  {
    hide InvDuring, Lawful, Released, GiveBack, OffLine, SetAway, TryPromote, OfferToNextDriver, RowOk, ClosedRow;
    hide GivenBack, Stripped;
    GiveBackStrips(db, r, o, d, env, depth);
    var g := GiveBack(r, d, env, depth);
    if g.Done? {
      StrippedParts(db, g.db, o, d);
      if g.db.orders[o].notes.claimedOffline {
        CloseRow(db, o, d, Cancelled);
        OffLineAwayLocal(g.db, d);
        var row := g.db.orders[o].(status := Cancelled);
        assert SetAway(OffLine(Put(g.db, o, row), d), d) == Put(SetAway(OffLine(g.db, d), d), o, row) by {
          OffCommutes(g.db, o, d, row);
        }
        StrippedCloses(db, g.db, SetAway(OffLine(g.db, d), d), o, d, row);
      } else {
        var row := g.db.orders[o].(driver := None, status := Searching);
        AwayLocal(g.db, d);
        FreedRide(db, o, d);
        var free := Put(SetAway(g.db, d), o, row);
        StrippedCloses(db, g.db, SetAway(g.db, d), o, d, row);
        FreeAdrift(db, g.db, o, d, SetAway(g.db, d), row);
        CarPasses(db, free, o, d, env, depth);
      }
    }
  }

  lemma OffCommutes(db: Db, o: OrderId, d: DriverId, row: Order)
    requires d in db.drivers
    ensures SetAway(OffLine(Put(db, o, row), d), d) == Put(SetAway(OffLine(db, d), d), o, row)
  {
  }

  lemma StrippedParts(db: Db, r: Db, o: OrderId, d: DriverId)
    requires Stripped(db, r, o, d)
    ensures o in db.orders && o in r.orders && r.orders[o] == db.orders[o] && Owns(db.orders[o], d, Ride)
    ensures d in r.drivers && d in db.drivers && r.drivers[d].status != Online
  {
  }

  lemma FreedRide(db: Db, o: OrderId, d: DriverId)
    requires Inv(db) && o in db.orders && Owns(db.orders[o], d, Ride)
    ensures var row := db.orders[o].(driver := None, status := Searching);
      RowOk(row) && Holder(row).None? && row.slot == NO_ROUTE_OFFER && RowLaw(db.orders[o], row)
  {
    assert RowOk(db.orders[o]);
  }

  // The ride's row released, the driver set aside.
  lemma StrippedCloses(db: Db, r: Db, moved: Db, o: OrderId, d: DriverId, row: Order)
    requires Stripped(db, r, o, d) && NoSlotOf(r.orders, d) && OnlyDriver(r, moved, d)
    requires moved.drivers[d].status != Online
    requires RowOk(row) && Holder(row).None? && row.slot == NO_ROUTE_OFFER && RowLaw(db.orders[o], row)
    requires row.driver.None? || Closed(row.status)
    ensures var f := Put(moved, o, row); Inv(f) && Lawful(db, f) && GivenBack(db, f, d) && f.drivers == moved.drivers
  {
    hide InvDuring, Lawful, RowOk, RowLaw, OnlyDriver;
    RowPartsOf(r, o, Some(d));
    RidingNotQueued(r.orders[o], d);
    ClosedElsewhere(r, o, row);
    FreeRow(r, o, row, r.parked, Some(d));
    var mid := Put(r, o, row);
    assert mid == Put(r, o, row).(parked := r.parked);
    SwapPut(r, moved, o, row, d);
    SameOrders(r, moved, d);
    NotOffered(mid, d, Some(d));
    var f := Put(moved, o, row);
    DriverMoves(mid, f, d, Some(d));
    assert f.orders == mid.orders;
    LawfulPut(db, r, o, row, f);
    NoSlotAfter(r.orders, o, row, d);
    forall a ensures a in f.orders ==> !Owns(f.orders[a], d, Reservation) && !Owns(f.orders[a], d, Ride) { }
    Close(f, d);
  }

  lemma FreeAdrift(db: Db, r: Db, o: OrderId, d: DriverId, moved: Db, row: Order)
    requires Stripped(db, r, o, d) && OnlyDriver(r, moved, d)
    requires row == r.orders[o].(driver := None, status := Searching)
    requires RowOk(row) && Holder(row).None? && row.slot == NO_ROUTE_OFFER
    ensures Adrift(Put(moved, o, row), o)
  {
    hide OrdersInv, RosterOk, Seated, DistinctPositions, Lawful;
    SameOrders(r, moved, d);
    RowPartsOf(r, o, Some(d));
    RidingNotQueued(r.orders[o], d);
    ClosedElsewhere(r, o, row);
  }

  // The broken ride goes to the next driver, then everybody else gets a chance.
  lemma CarPasses(db: Db, free: Db, o: OrderId, d: DriverId, env: Env, depth: nat)
    requires Inv(free) && Lawful(db, free) && Adrift(free, o) && GivenBack(db, free, d)
    requires d in free.drivers && free.drivers[d].status != Online
    ensures var c := ThenAway(ThenPromote(OfferToNextDriver(free, o, {}, None, env, depth), env, depth), d);
      Sound(db, c) && (c.Done? ==> GivenBack(db, c.db, d))
  {
    hide InvDuring, Lawful, OfferToNextDriver, TryPromote, Calm, GivenBack;
    var p := OfferToNextDriver(free, o, {}, None, env, depth);
    OfferSound(db, free, o, {}, env, depth);
    if p.Done? {
      var q := TryPromote(p.db, env, depth);
      TryPromoteKeeps(p.db, env, depth, None);
      CalmTrans(free, p.db, q.db);
      CalmFrame(free, q.db);
      GivenBackStays(db, free, q.db, d);
      AwaySound(db, q, d);
      if q.Done? { GivenBackSame(db, q.db, ThenAway(q, d).db, d); }
    }
  }

  lemma GivenBackStays(db: Db, f: Db, r: Db, d: DriverId)
    requires InvDuring(f, None) && Calm(f, r) && GivenBack(db, f, d)
    ensures GivenBack(db, r, d)
  {
    InvParts(f, None);
    CalmClaims(f, r, d, Reservation);
    CalmClaims(f, r, d, Ride);
    forall a | a in db.orders && Owns(db.orders[a], d, Reservation)
      ensures a in r.orders && r.orders[a].driver.None? && r.orders[a].reserved.None? && !Closed(r.orders[a].status)
    {
      CalmRow(f, r, a);
    }
  }

  lemma GivenBackSame(db: Db, r: Db, r': Db, d: DriverId)
    requires GivenBack(db, r, d) && r'.orders == r.orders
    ensures GivenBack(db, r', d)
  {
  }

  // Without a reservation nothing can come back.
  lemma NoReservationNoCard(db: Db, d: DriverId, env: Env, depth: nat)
    requires Inv(db) && ReservationOf(db, d).None?
    ensures NoCardComesBack(db, d, env, depth)
  {
    hide InvDuring, Lawful, RideOf, ReleaseRouteOffers;
    RideOfIsRide(db, d, None);
    if RideOf(db, d).Some? && ReleaseRouteOffers(db, RideOf(db, d).value, env, depth).Done? {
      var o := RideOf(db, d).value;
      ReleaseFirstKeeps(db, o, d, env, depth);
      var r := ReleaseRouteOffers(db, o, env, depth).db;
      ReservationOfIsReservation(db, d, None);
      ReservationOfIsReservation(r, d, Some(d));
      assert ReservationOf(r, d).None?;
      GiveBackStrips(db, r, o, d, env, depth);
    }
  }

  // The trip could be offered orders on its way.
  predicate DrawsCards(trip: Order)
  {
    trip.notes.departed.Some? && !trip.notes.autoOffersDisabled
    && exists v: Village :: TripLeadsTo(trip, v)
  }

  // A trip that has not departed, is suppressed, leads to no village or includes
  // its way back gets no card either.
  lemma QuietTripNoCard(db: Db, d: DriverId, env: Env, depth: nat)
    requires Inv(db) && (RideOf(db, d).Some? ==> !DrawsCards(db.orders[RideOf(db, d).value]))
    ensures NoCardComesBack(db, d, env, depth)
  {
    hide InvDuring, Calm, ReservationOf, RideOf, ReleaseRouteOffers, TryPromote;
    hide Repark, TripLeadsTo, NoRouteOn, SlotsOnlyClose, Lawful;
    RideOfIsRide(db, d, None);
    if RideOf(db, d).Some? {
      var o := RideOf(db, d).value;
      var r := ReleaseRouteOffers(db, o, env, depth).db;
      ReleaseKeeps(db, o, env, depth, None);
      CalmRow(db, r, o);
      ReservationOfIsReservation(r, d, None);
      var g := GiveBack(r, d, env, depth).db;
      if ReservationOf(r, d).Some? {
        var a := ReservationOf(r, d).value;
        ReparkKeeps(r, a, d, None);
        TryPromoteKeeps(Repark(r, a), env, depth, None);
        CalmRow(Repark(r, a), g, o);
      }
      forall x | x in g.orders ensures g.orders[x].slot.driver != Some(d) {
        if g.orders[x].slot.driver == Some(d) {
          CardTrip(g, x, d);
          SlotsOnRide(g, o, d);
        }
      }
    }
  }

  // ---------------------------------------------------------------- refusals

  // A refusal keeps the invariant exactly when the driver has no reservation
  // and no automatic offer in front of him.
  lemma RefusalKeepsIff(db: Db, o: OrderId, fromChat: bool)
    requires Inv(db) && o in db.orders && db.orders[o].status == Assigned
    ensures db.orders[o].driver.Some?
    ensures var d := db.orders[o].driver.value;
      Inv(RefusedRide(db, o, fromChat)) <==> !HasClaim(db.orders, d, Reservation) && NoSlotOf(db.orders, d)
  {
    hide InvDuring, RefusedRide;
    RowPartsOf(db, o, None);
    RiderNamed(db.orders[o]);
    var d := db.orders[o].driver.value;
    var row := db.orders[o].(status := Cancelled);
    RefusedOrders(db, o, fromChat);
    if !HasClaim(db.orders, d, Reservation) && NoSlotOf(db.orders, d) {
      RefusalKeeps(db, o, d, fromChat);
    } else {
      RefusalOrphans(db, RefusedRide(db, o, fromChat), o, d, row);
    }
  }

  lemma RefusedOrders(db: Db, o: OrderId, fromChat: bool)
    requires o in db.orders
    ensures RefusedRide(db, o, fromChat).orders == db.orders[o := db.orders[o].(status := Cancelled)]
  {
  }

  lemma RefusalKeeps(db: Db, o: OrderId, d: DriverId, fromChat: bool)
    requires Inv(db) && o in db.orders && db.orders[o].status == Assigned && Owns(db.orders[o], d, Ride)
    requires !HasClaim(db.orders, d, Reservation) && NoSlotOf(db.orders, d)
    ensures Inv(RefusedRide(db, o, fromChat)) && Lawful(db, RefusedRide(db, o, fromChat))
  {
    hide InvDuring, Lawful, HasClaim, RefusedRide;
    RefusedDuring(db, o, d, fromChat);
    ClosedRowSlot(db.orders[o], db.orders[o].(status := Cancelled)) by { CloseRow(db, o, d, Cancelled); }
    RefusedOrders(db, o, fromChat);
    NoSlotAfter(db.orders, o, db.orders[o].(status := Cancelled), d);
    Close(RefusedRide(db, o, fromChat), d);
  }

  // Without a reservation the refused ride leaves nothing but, perhaps, a card.
  lemma RefusedDuring(db: Db, o: OrderId, d: DriverId, fromChat: bool)
    requires Inv(db) && o in db.orders && db.orders[o].status == Assigned && Owns(db.orders[o], d, Ride)
    requires !HasClaim(db.orders, d, Reservation)
    ensures var r := RefusedRide(db, o, fromChat);
      InvDuring(r, Some(d)) && Lawful(db, r) && !HasClaim(r.orders, d, Reservation) && !HasClaim(r.orders, d, Ride)
  {
    hide InvDuring, Lawful, OnlyDriver, HasClaim, OffLine, RestorePosition, ReturnToQueue, ClosedRow;
    var row := db.orders[o].(status := Cancelled);
    var mid := Put(db, o, row);
    CloseRow(db, o, d, Cancelled);
    RiderKnown(db, o, d);
    RideCloses(db, o, row, d);
    NoReservationAfter(db, o, row, d);
    NotOffered(mid, d, Some(d));
    OffLineIsLocal(mid, d);
    BackLocal(mid, d);
    var r := RefusedRide(db, o, fromChat);
    DriverMoves(mid, r, d, Some(d));
    SameOrders(mid, r, d);
    LawfulSame(db, mid, r);
  }

  lemma BackLocal(db: Db, d: DriverId)
    requires d in db.drivers
    ensures OnlyDriver(db, RestorePosition(db, d), d) && OnlyDriver(db, ReturnToQueue(db, d), d)
  {
    hide MaxPosition;
  }

  lemma NoReservationAfter(db: Db, o: OrderId, row: Order, d: DriverId)
    requires !HasClaim(db.orders, d, Reservation) && Closed(row.status)
    ensures !HasClaim(Put(db, o, row).orders, d, Reservation)
  {
    var t := Put(db, o, row).orders;
    forall a | a in t ensures !Owns(t[a], d, Reservation) { }
  }

  // Otherwise the reservation is orphaned, or a card outlives its trip.
  lemma RefusalOrphans(db: Db, r: Db, o: OrderId, d: DriverId, row: Order)
    requires Inv(db) && o in db.orders && Owns(db.orders[o], d, Ride)
    requires r.orders == db.orders[o := row] && Closed(row.status)
    requires HasClaim(db.orders, d, Reservation) || !NoSlotOf(db.orders, d)
    ensures !Inv(r)
  {
    hide InvDuring;
    SlotsOnRide(db, o, d);
    forall b | b in r.orders ensures !Owns(r.orders[b], d, Ride) { }
    if HasClaim(db.orders, d, Reservation) {
      var a :| a in db.orders && Owns(db.orders[a], d, Reservation);
      assert Owns(r.orders[a], d, Reservation);
      if Inv(r) { BehindARide(r, a, d); }
    } else {
      var a :| a in db.orders && db.orders[a].slot.driver == Some(d);
      SlotIsUnridden(db, a);
      assert a != o && r.orders[a] == db.orders[a];
      if Inv(r) { SlotOnARide(r, a, d); }
    }
  }

  lemma BehindARide(db: Db, a: OrderId, d: DriverId)
    requires Inv(db) && a in db.orders && Owns(db.orders[a], d, Reservation)
    ensures exists b :: b in db.orders && Owns(db.orders[b], d, Ride)
  {
    assert Backed(db.orders, None);
    assert HasClaim(db.orders, d, Ride);
  }

  lemma SlotOnARide(db: Db, a: OrderId, d: DriverId)
    requires Inv(db) && a in db.orders && db.orders[a].slot.driver == Some(d)
    ensures exists b :: b in db.orders && Owns(db.orders[b], d, Ride)
  {
    assert OnTrip(db.orders, db.orders[a]);
  }

  lemma SlotIsUnridden(db: Db, a: OrderId)
    requires Inv(db) && a in db.orders && db.orders[a].slot.driver.Some?
    ensures Holder(db.orders[a]).None?
  {
    assert RowOk(db.orders[a]);
  }

  lemma RefuseRideSound(db: Db, o: OrderId, fromChat: bool, env: Env, depth: nat)
    requires Inv(db)
    requires o in db.orders && db.orders[o].status == Assigned && db.orders[o].driver.Some? ==>
               !HasClaim(db.orders, db.orders[o].driver.value, Reservation)
               && NoSlotOf(db.orders, db.orders[o].driver.value)
    ensures Sound(db, RefuseRide(db, o, fromChat, env, depth))
  {
    hide InvDuring, Lawful, RefusedRide, TryPromote, HasClaim, RowOk;
    LawfulRefl(db);
    if o in db.orders && db.orders[o].status == Assigned {
      RowPartsOf(db, o, None);
      RiderNamed(db.orders[o]);
      RefusalKeeps(db, o, db.orders[o].driver.value, fromChat);
      PromoteSound(db, RefusedRide(db, o, true), env, depth) by {
        RefusalKeeps(db, o, db.orders[o].driver.value, true);
      }
    }
  }
}
