// Every ordinary end of a ride keeps the invariant and hands the reservation on.
module TripSafety {
  import opened Options
  import opened DispatchState
  import opened OrderTable
  import opened DriverLine
  import opened Cascade
  import opened CascadeInv
  import opened Frames
  import opened PassengerQueue
  import opened Transactions
  import opened Trips
  import opened Handoff
  import opened OfferSteps
  import opened ClaimSteps
  import opened RouteSteps
  import opened TripSteps

  // ---------------------------------------------------------------- during the ride

  lemma RideNote(db: Db, o: OrderId, row: Order)
    requires Inv(db) && o in db.orders && SameCommitment(db.orders[o], row) && RowLaw(db.orders[o], row)
    ensures Inv(Put(db, o, row)) && Lawful(db, Put(db, o, row))
  {
    hide InvDuring, Lawful, RowLaw, SameCommitment;
    NoteRow(db, o, row, None);
    LawfulRefl(db);
    LawfulPut(db, db, o, row, Put(db, o, row));
  }

  lemma DepartSound(db: Db, d: DriverId, env: Env)
    requires Inv(db)
    ensures Inv(Depart(db, d, env)) && Lawful(db, Depart(db, d, env))
  {
    hide Inv, Lawful, RideOf;
    LawfulRefl(db);
    if RideOf(db, d).Some? {
      var o := RideOf(db, d).value;
      var row := CardClosed(db.orders[o], env);
      RideNote(db, o, if row.notes.departed.Some? then row else row.(notes := WithDeparture(row.notes, env.now)));
    }
  }

  lemma SeatSound(db: Db, d: DriverId)
    requires Inv(db)
    ensures Inv(Seat(db, d)) && Lawful(db, Seat(db, d))
  {
    hide InvDuring, Lawful, RideOf;
    LawfulRefl(db);
    RideOfIsRide(db, d, None);
    if RideOf(db, d).Some? {
      var o := RideOf(db, d).value;
      RideNote(db, o, db.orders[o].(status := InProgress));
    }
  }

  lemma ArriveSound(db: Db, d: DriverId, env: Env)
    requires Inv(db)
    ensures Inv(Arrive(db, d, env)) && Lawful(db, Arrive(db, d, env))
  {
    hide InvDuring, Lawful, RideOf, LatestAvailable, NotifyBusyDrivers, Calm;
    LawfulRefl(db);
    RideOfIsRide(db, d, None);
    if RideOf(db, d).Some? {
      var o := RideOf(db, d).value;
      var there := Put(db, o, db.orders[o].(status := Arrived));
      RideNote(db, o, db.orders[o].(status := Arrived));
      var a := LatestAvailable(there, there.nextOrder);
      if a.Some? {
        NotifyKeeps(there, a.value, env, None);
        KeptCalm(there, NotifyBusyDrivers(there, a.value, env).db, a.value, None);
        LawfulCalm(db, there, NotifyBusyDrivers(there, a.value, env).db);
      }
    }
  }

  // ---------------------------------------------------------------- handing on

  lemma HandOnSound(db: Db, r: Db, moved: Db, idle: Db, d: DriverId, env: Env)
    requires Ended(db, r, d)
    requires OnlyDriver(r, moved, d) && moved.drivers[d].status != Online
    requires OnlyDriver(r, idle, d)
    ensures var h := HandOn(moved, idle, d, env); Inv(h) && Lawful(db, h) && HandedOver(db, h, d)
  {
    hide InvDuring, Inv, Lawful, OnlyDriver, HasClaim, Promote;
    EndedMoves(db, r, moved, d);
    assert ReservationOf(moved, d) == ReservationOf(r, d);
    if ReservationOf(moved, d).Some? {
      assert !HasClaim(moved.orders, d, Ride);
      assert d in moved.drivers by { LocalDriver(r, moved, d); }
      PromoteCloses(db, moved, d, env);
    } else {
      IdleCloses(db, r, idle, d);
    }
  }

  lemma LocalDriver(db: Db, db': Db, d: DriverId)
    requires OnlyDriver(db, db', d)
    ensures d in db'.drivers
  {
  }

  lemma StaysLocal(db: Db, d: DriverId)
    requires d in db.drivers
    ensures OnlyDriver(db, db, d)
  {
  }

  lemma TripLocals(db: Db, d: DriverId, row: Order)
    requires d in db.drivers && db.drivers[d].status != Online
    ensures OnlyDriver(db, LeftIfTemporary(db, d, row), d) && LeftIfTemporary(db, d, row).drivers[d].status != Online
    ensures OnlyDriver(db, SetAway(LeftIfTemporary(db, d, row), d), d)
    ensures OnlyDriver(db, RestorePosition(db, d), d)
  {
    hide OnlyDriver, OffLine, SetAway, RestorePosition;
    OffLineIsLocal(db, d);
    StaysLocal(db, d);
    AwayIsLocal(db, d);
    LeftStatus(db, d);
    OffThenAway(db, d);
    RestoreIsLocal(db, d);
  }

  lemma LeftStatus(db: Db, d: DriverId)
    requires d in db.drivers
    ensures OffLine(db, d).drivers[d].status == Offline
  {
  }

  lemma AwayIsLocal(db: Db, d: DriverId)
    requires d in db.drivers
    ensures OnlyDriver(db, SetAway(db, d), d)
  {
    hide MaxPosition;
  }

  lemma RestoreIsLocal(db: Db, d: DriverId)
    requires d in db.drivers
    ensures OnlyDriver(db, RestorePosition(db, d), d)
  {
    hide MaxPosition;
  }

  // Off the line, then asked which line to join.
  lemma OffThenAway(db: Db, d: DriverId)
    requires d in db.drivers
    ensures OnlyDriver(db, SetAway(OffLine(db, d), d), d)
  {
    hide OnlyDriver;
    OffLineIsLocal(db, d);
    AwayIsLocal(OffLine(db, d), d);
    LocalThen(db, OffLine(db, d), SetAway(OffLine(db, d), d), d);
  }

  lemma LocalThen(a: Db, b: Db, c: Db, d: DriverId)
    requires OnlyDriver(a, b, d) && OnlyDriver(b, c, d)
    requires d in c.queue ==> d in b.queue && c.queue[d].position == b.queue[d].position
    ensures OnlyDriver(a, c, d)
  {
    hide MaxPosition;
    assert a.drivers[d := b.drivers[d]][d := c.drivers[d]] == a.drivers[d := c.drivers[d]];
  }

  lemma AdminLocal(db: Db, d: DriverId)
    requires d in db.drivers
    ensures OnlyDriver(db, AdminRestore(db, d), d)
  {
    hide MaxPosition;
  }

  // Closing a ride's row in any of the two ways.
  lemma CloseRow(db: Db, o: OrderId, d: DriverId, s: Status)
    requires Inv(db) && o in db.orders && Owns(db.orders[o], d, Ride) && Closed(s)
    ensures ClosedRow(db.orders[o], db.orders[o].(status := s))
    ensures db.orders[o].offered.None? && db.orders[o].reserved.None? && db.orders[o].slot == NO_ROUTE_OFFER
    ensures db.orders[o].driver == Some(d) && Riding(db.orders[o].status)
  {
    assert RowOk(db.orders[o]);
  }

  // Taking a closed order out of the passenger queue changes nothing that counts.
  lemma EndedRemove(db: Db, r: Db, o: OrderId, d: DriverId)
    requires Ended(db, r, d) && o in r.orders && r.orders[o].slot == NO_ROUTE_OFFER
    ensures Ended(db, Remove(r, o), d) && Remove(r, o).orders == r.orders && Remove(r, o).drivers == r.drivers
  {
    hide InvDuring, Lawful, Unpark;
    var c := Remove(r, o);
    assert c.orders == r.orders by { assert r.orders[o := r.orders[o]] == r.orders; }
    UnparkedInv(r, o, Some(d));
    assert c == r.(parked := Unpark(r.parked, o));
    LawfulSame(db, r, c);
  }

  lemma UnparkedInv(r: Db, o: OrderId, e: Option<DriverId>)
    requires InvDuring(r, e) && o in r.orders
    ensures InvDuring(r.(parked := Unpark(r.parked, o)), e)
  {
    hide OrdersInv, RosterOk, DistinctPositions, Seated;
    var c := r.(parked := Unpark(r.parked, o));
    UnparkLeavesOk(r, o, r.orders[o]);
    assert r.orders[o := r.orders[o]] == r.orders;
    SeatedSame(r, c);
    RosterSame(r, c);
  }

  lemma SeatedSame(db: Db, db': Db)
    requires Seated(db) && db'.orders == db.orders && db'.drivers == db.drivers && db'.queue == db.queue
    ensures Seated(db')
  {
    forall a, x: DriverId | LiveOffer(db'.orders, a, x) ensures SeatedOffer(db', a, x) {
      assert LiveOffer(db.orders, a, x);
      assert SeatedOffer(db, a, x);
    }
  }

  lemma RosterSame(db: Db, db': Db)
    requires RosterOk(db) && db' == db.(parked := db'.parked)
    ensures RosterOk(db')
  {
  }

  // ---------------------------------------------------------------- completion

  // A completed ride makes the reservation the next ride.
  lemma CompleteSound(db: Db, d: DriverId, env: Env, depth: nat)
    requires Inv(db)
    ensures Sound(db, Complete(db, d, env, depth))
    ensures var r := Complete(db, d, env, depth);
      r.Done? && HasClaim(db.orders, d, Ride) ==> HandedOver(db, r.db, d)
  {
    hide InvDuring, Lawful, RideOf, EndRide, Ended, HandOn, SetAway, LeftIfTemporary, HandedOver;
    LawfulRefl(db);
    RideOfIsRide(db, d, None);
    if RideOf(db, d).Some? {
      var o := RideOf(db, d).value;
      var row := db.orders[o].(status := Completed);
      CloseRow(db, o, d, Completed);
      RiderKnown(db, o, d);
      EndRideKeeps(db, o, row, d, env, depth);
      var e := EndRide(db, o, row, env, depth);
      if e.Done? {
        EndedDriver(db, e.db, d);
        TripLocals(e.db, d, row);
        var left := LeftIfTemporary(e.db, d, row);
        HandOnSound(db, e.db, left, SetAway(left, d), d, env);
      }
    }
  }

  lemma RiderKnown(db: Db, o: OrderId, d: DriverId)
    requires Inv(db) && o in db.orders && Owns(db.orders[o], d, Ride)
    ensures d in db.drivers && db.drivers[d].status != Online
  {
    assert Works(db.orders[o], d);
  }

  lemma EndedDriver(db: Db, r: Db, d: DriverId)
    requires Ended(db, r, d)
    ensures d in r.drivers && r.drivers[d].status != Online && r.drivers == db.drivers
  {
  }

  // ---------------------------------------------------------------- cancellation

  // Closing an order that is nobody's ride.
  lemma CloseUnridden(db: Db, o: OrderId, row: Order)
    requires Inv(db) && o in db.orders
    requires Holder(db.orders[o]).Some? ==> Holder(db.orders[o]).value.kind != Ride
    requires ClosedRow(db.orders[o], row)
    ensures var c := Put(db, o, row).(parked := Unpark(db.parked, o)); Inv(c) && Lawful(db, c)
  {
    hide InvDuring, Lawful, RowOk, OrdersInv, RowLaw;
    RowParts(db, o, None);
    UnparkLeavesOk(db, o, row);
    FreeRow(db, o, row, Unpark(db.parked, o), None);
    LawfulRefl(db);
    LawfulPut(db, db, o, row, Put(db, o, row).(parked := Unpark(db.parked, o)));
  }

  // No trip, no route offers to close.
  lemma NothingToRelease(db: Db, o: OrderId, row: Order, env: Env, depth: nat)
    requires Inv(db) && o in db.orders && row.slot == db.orders[o].slot
    requires Holder(db.orders[o]).Some? ==> Holder(db.orders[o]).value.kind != Ride
    ensures ReleaseRouteOffers(Put(db, o, row), o, env, depth) == Done(Put(db, o, row), false)
    ensures ReleaseRouteOffers(db, o, env, depth) == Done(db, false)
  {
    hide RowOk, RosterOk, ParkedOk, Seated, DistinctPositions;
    forall a: OrderId ensures !RoutedOn(db.orders, a, o) && !RoutedOn(Put(db, o, row).orders, a, o) {
      assert a in db.orders && db.orders[a].slot.driver.Some? ==> OnTrip(db.orders, db.orders[a]);
    }
    EmptyRouted(db.orders, o, db.nextOrder);
    EmptyRouted(Put(db, o, row).orders, o, db.nextOrder);
  }

  lemma {:induction false} EmptyRouted(orders: Orders, trip: OrderId, n: OrderId)
    requires NoRouteOn(orders, trip)
    ensures Routed(orders, trip, n) == []
  {
    if n > 0 { EmptyRouted(orders, trip, n - 1); }
  }

  // Whoever was still looking at a closed order is let go.
  lemma WithdrawCloses(db: Db, o: OrderId, d: DriverId, row: Order, moved: Db)
    requires Inv(db) && LiveOffer(db.orders, o, d) && d in db.drivers && OnlyDriver(db, moved, d)
    requires ClosedRow(db.orders[o], row)
    ensures var c := Put(moved, o, row).(parked := Unpark(db.parked, o)); Inv(c) && Lawful(db, c)
  {
    hide InvDuring, Lawful, RowOk, OnlyDriver, HasClaim, OfferedTo, RowLaw;
    var mid := Put(db, o, row).(parked := Unpark(db.parked, o));
    CloseUnridden(db, o, row);
    OfferedIsSearching(db, o);
    NobodyElseOffered(db, o, d);
    FreedDriver(db, o, d, row);
    var c := Put(moved, o, row).(parked := Unpark(db.parked, o));
    SwapPutParked(db, moved, o, row, d, Unpark(db.parked, o));
    SameOffers(Put(db, o, row), mid, d);
    DriverMoves(mid, c, d, None);
    SameOrders(db, moved, d);
    LawfulSame(db, mid, c);
  }

  lemma NobodyElseOffered(db: Db, o: OrderId, d: DriverId)
    requires Inv(db) && LiveOffer(db.orders, o, d)
    ensures FreeBut(db.orders, d, o)
  {
    assert Owns(db.orders[o], d, Offer);
    OfferExcludesWork(db.orders, o, d);
  }

  lemma SwapPutParked(db: Db, moved: Db, o: OrderId, row: Order, d: DriverId, parked: seq<Parked>)
    requires OnlyDriver(db, moved, d)
    ensures OnlyDriver(Put(db, o, row).(parked := parked), Put(moved, o, row).(parked := parked), d)
  {
  }

  lemma PassengerCancelSound(db: Db, o: OrderId, env: Env, depth: nat)
    requires Inv(db)
    ensures Sound(db, PassengerCancel(db, o, env, depth))
    ensures var r := PassengerCancel(db, o, env, depth);
      r.Done? && o in db.orders && PassengerMayCancel(db.orders[o]) ==>
        (forall d :: Owns(db.orders[o], d, Ride) ==> HandedOver(db, r.db, d))
  {
    hide InvDuring, Lawful, HandedOver, EndRide, TryPromote, RowOk, Remove, RestorePosition, WithdrawOffer, HandOn;
    LawfulRefl(db);
    if o in db.orders && PassengerMayCancel(db.orders[o]) {
      var h := Holder(db.orders[o]);
      RowParts(db, o, None);
      if h.Some? && h.value.kind == Ride {
        RideCancelled(db, o, h.value.driver, env, depth);
      } else {
        UnriddenCancelled(db, o, env, depth);
      }
    }
  }

  lemma RideCancelled(db: Db, o: OrderId, d: DriverId, env: Env, depth: nat)
    requires Inv(db) && o in db.orders && Owns(db.orders[o], d, Ride) && PassengerMayCancel(db.orders[o])
    ensures var r := PassengerCancel(db, o, env, depth);
      Sound(db, r) && (r.Done? ==> HandedOver(db, r.db, d))
  {
    hide InvDuring, Lawful, HandedOver, EndRide, TryPromote, RowOk, Ended, HandOn, RestorePosition, Remove;
    var row := db.orders[o].(status := Cancelled);
    CloseRow(db, o, d, Cancelled);
    EndRideKeeps(db, o, row, d, env, depth);
    var e := EndRide(db, o, row, env, depth);
    if e.Done? {
      EndedRemove(db, e.db, o, d);
      var c := Remove(e.db, o);
      EndedDriver(db, c, d);
      TripLocals(c, d, row);
      StaysLocal(c, d);
      HandOnSound(db, c, c, RestorePosition(c, d), d, env);
      var h := HandOn(c, RestorePosition(c, d), d, env);
      PromoteSound(db, h, env, depth);
      HandedOverStays(db, h, d, env, depth);
    }
  }

  // The opportunity check afterwards leaves the handover as it is.
  lemma HandedOverStays(db: Db, h: Db, d: DriverId, env: Env, depth: nat)
    requires Inv(h) && HandedOver(db, h, d)
    ensures HandedOver(db, TryPromote(h, env, depth).db, d)
  {
    hide InvDuring, Calm, TryPromote;
    var r := TryPromote(h, env, depth).db;
    TryPromoteKeeps(h, env, depth, None);
    InvParts(h, None);
    CalmClaims(h, r, d, Reservation);
    forall a | a in db.orders && Owns(db.orders[a], d, Reservation)
      ensures a in r.orders && Owns(r.orders[a], d, Ride)
    {
      CalmRow(h, r, a);
    }
  }

  lemma UnriddenCancelled(db: Db, o: OrderId, env: Env, depth: nat)
    requires Inv(db) && o in db.orders && PassengerMayCancel(db.orders[o])
    requires Holder(db.orders[o]).Some? ==> Holder(db.orders[o]).value.kind != Ride
    ensures Sound(db, PassengerCancel(db, o, env, depth))
  {
    hide InvDuring, Lawful, TryPromote, ReleaseOffer, RowOk, ReleaseRouteOffers, WithdrawOffer;
    RowParts(db, o, None);
    var was := db.orders[o];
    NothingToRelease(db, o, was.(status := Cancelled), env, depth);
    var row := ClearRoute(was.(status := Cancelled));
    var c := Put(db, o, row).(parked := Unpark(db.parked, o));
    assert Remove(Put(db, o, was.(status := Cancelled)), o) == c by {
      OverwriteRow(db.orders, o, was.(status := Cancelled), row);
    }
    if was.driver.None? {
      CancelledOffer(db, o);
      PromoteSound(db, WithdrawOffer(c, o), env, depth);
    } else {
      var last := row.(reserved := None, driver := None);
      CancelledRow(was);
      CloseUnridden(db, o, last);
      assert Put(c, o, last) == Put(db, o, last).(parked := Unpark(db.parked, o)) by {
        OverwriteRow(db.orders, o, row, last);
      }
      PromoteSound(db, Put(c, o, last), env, depth);
    }
  }

  // The order closed under the eyes of a driver, if one was looking at it.
  lemma CancelledOffer(db: Db, o: OrderId)
    requires Inv(db) && o in db.orders && db.orders[o].driver.None?
    requires !Riding(db.orders[o].status) && !Closed(db.orders[o].status)
    ensures var row := ClearRoute(db.orders[o].(status := Cancelled));
      var c := Put(db, o, row).(parked := Unpark(db.parked, o));
      Inv(WithdrawOffer(c, o)) && Lawful(db, WithdrawOffer(c, o))
  {
    hide InvDuring, Lawful, ReleaseOffer, RowOk, ClosedRow, Unpark;
    RowParts(db, o, None);
    var was := db.orders[o];
    var row := ClearRoute(was.(status := Cancelled));
    var c := Put(db, o, row).(parked := Unpark(db.parked, o));
    var last := row.(offered := None);
    CancelledRow(was);
    assert last == ClearRoute(was.(status := Cancelled)).(offered := None, reserved := None);
    if was.offered.Some? {
      var d := was.offered.value;
      OfferedIsSearching(db, o);
      OfferedIsOnline(db, d, None);
      ReleaseIsLocal(db, d, Dislike);
      WithdrawCloses(db, o, d, last, ReleaseOffer(db, d));
      ReleaseCommutes(db, c, o, d, row, last);
    } else {
      CloseUnridden(db, o, last);
      assert last == row;
    }
  }

  lemma OverwriteRow(orders: Orders, o: OrderId, a: Order, b: Order)
    ensures orders[o := a][o := b] == orders[o := b]
  {
  }

  lemma CancelledRow(was: Order)
    requires RowOk(was) && !Riding(was.status) && !Closed(was.status)
    ensures var row := ClearRoute(was.(status := Cancelled)).(offered := None, reserved := None);
      ClosedRow(was, row) && ClosedRow(was, row.(driver := None))
    ensures was.offered.Some? ==> was.driver.None? && was.reserved.None?
    ensures was.driver.Some? ==> was.reserved.Some? && was.offered.None?
    ensures was.driver.None? ==> was.reserved.None?
  {
  }

  lemma ReleaseCommutes(db: Db, c: Db, o: OrderId, d: DriverId, row: Order, last: Order)
    requires d in db.drivers && c == Put(db, o, row).(parked := Unpark(db.parked, o))
    ensures d in c.drivers
    ensures Put(ReleaseOffer(c, d), o, last) == Put(ReleaseOffer(db, d), o, last).(parked := Unpark(db.parked, o))
  {
    OverwriteRow(db.orders, o, row, last);
  }
}
