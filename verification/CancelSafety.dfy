// Cancellation by the dispatcher, the administrator and the driver, and the two
// refusals that forget what hangs on a ride.
module CancelSafety {
  import opened Options
  import opened DispatchState
  import opened OrderTable
  import opened DriverLine
  import opened Cascade
  import opened CascadeInv
  import opened Frames
  import opened PassengerQueue
  import opened Transactions
  import opened Trips
  import opened Handoff
  import opened OfferSteps
  import opened ClaimSteps
  import opened RouteSteps
  import opened TripSteps
  import opened TripSafety

  // ---------------------------------------------------------------- release first

  // The trip of driver d with its route offers closed, its own row untouched.
  ghost predicate Released(db: Db, r: Db, o: OrderId, d: DriverId)
  {
    && InvDuring(r, Some(d)) && Lawful(db, r) && NoSlotOf(r.orders, d)
    && o in db.orders && o in r.orders && r.orders[o] == db.orders[o] && Owns(r.orders[o], d, Ride)
    && (forall a :: a in r.orders && Owns(r.orders[a], d, Ride) ==> a == o)
    && r.drivers == db.drivers && d in r.drivers && r.drivers[d].status != Online && r.nextOrder == db.nextOrder
    && (forall a :: a in db.orders && Owns(db.orders[a], d, Reservation) ==>
          a in r.orders && r.orders[a] == db.orders[a])
    && (forall a :: a in r.orders && Owns(r.orders[a], d, Reservation) ==>
          a in db.orders && Owns(db.orders[a], d, Reservation))
  }

  lemma ReleaseFirstKeeps(db: Db, o: OrderId, d: DriverId, env: Env, depth: nat)
    requires Inv(db) && o in db.orders && Owns(db.orders[o], d, Ride)
    ensures var r := ReleaseRouteOffers(db, o, env, depth); r.Done? ==> Released(db, r.db, o, d)
  {
    hide InvDuring, Lawful, Calm, ReleaseRouteOffers, RowOk, RowLaw;
    Open(db, d);
    ReleaseKeeps(db, o, env, depth, Some(d));
    var r := ReleaseRouteOffers(db, o, env, depth);
    if r.Done? {
      SlotsOnRide(db, o, d);
      NoSlotLeft(db, r.db, o, d);
      CalmFrame(db, r.db);
      CalmRow(db, r.db, o);
      LawfulRefl(db);
      LawfulCalm(db, db, r.db);
      forall a | a in r.db.orders && Owns(r.db.orders[a], d, Ride) ensures a == o {
        WorkStood(db, r.db, a, d, Ride, None);
      }
      forall a | a in db.orders && Owns(db.orders[a], d, Reservation) ensures r.db.orders[a] == db.orders[a] {
        CalmRow(db, r.db, a);
      }
      forall a | a in r.db.orders && Owns(r.db.orders[a], d, Reservation)
        ensures a in db.orders && Owns(db.orders[a], d, Reservation)
      {
        WorkStood(db, r.db, a, d, Reservation, None);
      }
    }
  }

  lemma WorkStood(db: Db, r: Db, a: OrderId, d: DriverId, k: Kind, e: Option<DriverId>)
    requires InvDuring(db, e) && Calm(db, r) && a in r.orders && Owns(r.orders[a], d, k) && k != Offer
    ensures a in db.orders && Owns(db.orders[a], d, k)
  {
    InvParts(db, e);
  }

  lemma CloseReleased(db: Db, r: Db, o: OrderId, d: DriverId, row: Order)
    requires Released(db, r, o, d) && ClosedRow(db.orders[o], row)
    ensures Ended(db, Put(r, o, row), d)
  {
    hide InvDuring, Lawful, RowOk, RowLaw;
    var mid := Put(r, o, row);
    RowPartsOf(r, o, Some(d));
    RidingNotQueued(r.orders[o], d);
    ClosedElsewhere(r, o, row);
    FreeRow(r, o, row, r.parked, Some(d));
    assert mid == Put(r, o, row).(parked := r.parked);
    LawfulPut(db, r, o, row, mid);
    forall a | a in mid.orders ensures !Owns(mid.orders[a], d, Ride) { }
    NoSlotAfter(r.orders, o, row, d);
    NotOffered(mid, d, Some(d));
  }

  lemma RowPartsOf(db: Db, o: OrderId, e: Option<DriverId>)
    requires InvDuring(db, e) && o in db.orders
    ensures RowOk(db.orders[o]) && ParkedOk(db.orders, db.parked)
  {
  }

  lemma RidingNotQueued(row: Order, d: DriverId)
    requires Owns(row, d, Ride)
    ensures row.status != Queued && Riding(row.status) && row.driver == Some(d)
  {
  }

  lemma ReleaseThenCloseKeeps(db: Db, o: OrderId, d: DriverId, row: Order, env: Env, depth: nat)
    requires Inv(db) && o in db.orders && Owns(db.orders[o], d, Ride) && ClosedRow(db.orders[o], row)
    ensures var r := ReleaseThenClose(db, o, row, env, depth);
      r.Done? ==> Ended(db, r.db, d) && r.db.orders[o] == row
  {
    hide Inv, Released, Ended, ClosedRow, ReleaseRouteOffers;
    ReleaseFirstKeeps(db, o, d, env, depth);
    var r := ReleaseRouteOffers(db, o, env, depth);
    if r.Done? {
      CloseReleased(db, r.db, o, d, row);
      assert row.slot == NO_ROUTE_OFFER by { ClosedRowSlot(db.orders[o], row); }
      EndedRemove(db, Put(r.db, o, row), o, d);
    }
  }

  lemma ClosedRowSlot(a: Order, row: Order)
    requires ClosedRow(a, row)
    ensures row.slot == NO_ROUTE_OFFER
  {
  }

  lemma UnriddenClosed(db: Db, o: OrderId, row: Order, env: Env, depth: nat)
    requires Inv(db) && o in db.orders && row.slot == db.orders[o].slot
    requires Holder(db.orders[o]).Some? ==> Holder(db.orders[o]).value.kind != Ride
    ensures ReleaseThenClose(db, o, row, env, depth)
         == Done(Put(db, o, ClearRoute(row)).(parked := Unpark(db.parked, o)), false)
  {
    NothingToRelease(db, o, row, env, depth);
    OverwriteRow(db.orders, o, row, ClearRoute(row));
  }

  // ---------------------------------------------------------------- dispatcher

  // On anything but a reservation, the dispatcher's cancellation is sound.
  lemma DispatcherCancelSound(db: Db, o: OrderId, env: Env, depth: nat)
    requires Inv(db)
    requires o in db.orders ==> db.orders[o].status != ParallelAssigned
    ensures Sound(db, DispatcherCancel(db, o, env, depth))
    ensures var r := DispatcherCancel(db, o, env, depth);
      r.Done? && o in db.orders && DispatcherMayCancel(db.orders[o]) ==>
        (forall d :: Owns(db.orders[o], d, Ride) ==> HandedOver(db, r.db, d))
  {
    hide InvDuring, Lawful, HandedOver, ReleaseThenClose, HandOn, RestorePosition, Ended, RowOk, WithdrawOffer;
    LawfulRefl(db);
    if o in db.orders && DispatcherMayCancel(db.orders[o]) {
      RowPartsOf(db, o, None);
      var row := db.orders[o].(status := Cancelled);
      if Riding(db.orders[o].status) {
        RiderNamed(db.orders[o]);
        var d := db.orders[o].driver.value;
        CloseRow(db, o, d, Cancelled);
        ReleaseThenCloseKeeps(db, o, d, row, env, depth);
        var c := ReleaseThenClose(db, o, row, env, depth);
        if c.Done? {
          EndedDriver(db, c.db, d);
          TripLocals(c.db, d, row);
          StaysLocal(c.db, d);
          HandOnSound(db, c.db, c.db, RestorePosition(c.db, d), d, env);
        }
      } else {
        UnriddenClosed(db, o, row, env, depth);
        NotRidden(db.orders[o]);
        CancelledOffer(db, o);
      }
    }
  }

  lemma RiderNamed(row: Order)
    requires RowOk(row) && Riding(row.status)
    ensures row.driver.Some? && Owns(row, row.driver.value, Ride)
  {
  }

  lemma NotRidden(row: Order)
    requires RowOk(row) && !Riding(row.status)
    ensures forall d :: !Owns(row, d, Ride)
    ensures row.status != ParallelAssigned && !Closed(row.status) ==> row.driver.None? && row.reserved.None?
  {
  }

  // What it leaves of a reservation: the closed order still in the driver's name, and
  // the driver shown as free in the line, or as off line, in the middle of his ride.
  ghost predicate HalfCancelled(db: Db, r: Db, o: OrderId, d: DriverId)
  {
    && o in db.orders && r.orders == db.orders[o := db.orders[o].(status := Cancelled)]
    && r.orders[o].driver == Some(d) && r.orders[o].reserved == Some(d) && HasClaim(r.orders, d, Ride)
    && d in r.drivers && r.drivers[d].status == (if d in db.queue then Online else Offline)
    && (d in db.queue ==> r.queue == SetRowStatus(db.queue, d, Waiting))
  }

  // So on a reservation it is not sound: no reachable state looks like that.
  lemma DispatcherCancelOfReservation(db: Db, o: OrderId, env: Env, depth: nat)
    requires Inv(db) && o in db.orders && DispatcherMayCancel(db.orders[o])
    ensures var r := DispatcherCancel(db, o, env, depth);
      db.orders[o].status == ParallelAssigned ==>
        && r.Done? && !Inv(r.db)
        && db.orders[o].driver.Some? && HalfCancelled(db, r.db, o, db.orders[o].driver.value)
  {
    hide InvDuring, Lawful, Promote, RestorePosition, ReleaseThenClose, ReservationOf, HalfCancelled, HasClaim;
    if db.orders[o].status == ParallelAssigned {
      ReservesOwns(db, o, None);
      var row := db.orders[o].(status := Cancelled);
      UnriddenClosed(db, o, row, env, depth);
      RowPartsOf(db, o, None);
      var c := ReleaseThenClose(db, o, row, env, depth).db;
      var d := db.orders[o].driver.value;
      WorkerKnown(db, o, d);
      NothingElseReserved(db, c, o, d);
      RideBehind(db, o, d);
      Restored(db, c, o, d);
      var r := DispatcherCancel(db, o, env, depth).db;
      StillNamed(db, r, o, d);
    }
  }

  lemma NothingElseReserved(db: Db, c: Db, o: OrderId, d: DriverId)
    requires Inv(db) && o in db.orders && Owns(db.orders[o], d, Reservation)
    requires c.orders == db.orders[o := ClearRoute(db.orders[o].(status := Cancelled))]
    ensures ReservationOf(c, d).None?
  {
    if ReservationOf(c, d).Some? {
      var a := ReservationOf(c, d).value;
      assert a != o && Owns(db.orders[a], d, Reservation);
      AtMostOneEach(db.orders, o, a, d, Reservation);
    }
  }

  lemma RideBehind(db: Db, o: OrderId, d: DriverId)
    requires Inv(db) && o in db.orders && Owns(db.orders[o], d, Reservation)
    ensures exists b :: b in db.orders && b != o && Owns(db.orders[b], d, Ride)
    ensures db.orders[o].slot == NO_ROUTE_OFFER && db.orders[o].reserved == Some(d) && db.orders[o].driver == Some(d)
  {
    assert RowOk(db.orders[o]);
    assert HasClaim(db.orders, d, Ride);
  }

  lemma Restored(db: Db, c: Db, o: OrderId, d: DriverId)
    requires o in db.orders && db.orders[o].slot == NO_ROUTE_OFFER && d in db.drivers
    requires db.orders[o].reserved == Some(d) && db.orders[o].driver == Some(d)
    requires exists b :: b in db.orders && b != o && Owns(db.orders[b], d, Ride)
    requires c == Put(db, o, ClearRoute(db.orders[o].(status := Cancelled))).(parked := Unpark(db.parked, o))
    ensures d in c.drivers && HalfCancelled(db, RestorePosition(c, d), o, d)
  {
    var r := RestorePosition(c, d);
    var b :| b in db.orders && b != o && Owns(db.orders[b], d, Ride);
    assert b in r.orders && Owns(r.orders[b], d, Ride);
  }

  lemma StillNamed(db: Db, r: Db, o: OrderId, d: DriverId)
    requires HalfCancelled(db, r, o, d)
    ensures !Inv(r)
  {
    assert !RowOk(r.orders[o]);
  }

  lemma WorkerKnown(db: Db, o: OrderId, d: DriverId)
    requires Inv(db) && o in db.orders && Works(db.orders[o], d)
    ensures d in db.drivers && db.drivers[d].status != Online
  {
  }

  // ---------------------------------------------------------------- administrator

  lemma AdminCancelSound(db: Db, o: OrderId, env: Env, depth: nat)
    requires Inv(db)
    ensures Sound(db, AdminCancel(db, o, env, depth))
    ensures var r := AdminCancel(db, o, env, depth);
      r.Done? && o in db.orders ==> (forall d :: Owns(db.orders[o], d, Ride) ==> HandedOver(db, r.db, d))
  {
    hide InvDuring, Lawful, HandedOver, ReleaseThenClose, HandOn, AdminRestore, Ended, RowOk, ClosedRow;
    LawfulRefl(db);
    if o in db.orders && !Closed(db.orders[o].status) {
      RowPartsOf(db, o, None);
      var was := db.orders[o];
      var row := was.(status := Cancelled, offered := None, reserved := None);
      if Riding(was.status) {
        RiderNamed(was);
        var d := was.driver.value;
        CloseRow(db, o, d, Cancelled);
        assert row == was.(status := Cancelled);
        ReleaseThenCloseKeeps(db, o, d, row, env, depth);
        var c := ReleaseThenClose(db, o, row, env, depth);
        if c.Done? {
          EndedDriver(db, c.db, d);
          AdminLocal(c.db, d);
          StaysLocal(c.db, d);
          HandOnSound(db, c.db, c.db, AdminRestore(c.db, d), d, env);
        }
      } else {
        NotRidden(was);
        AdminUnridden(db, o, env, depth);
      }
    } else if o in db.orders {
    }
  }

  lemma AdminUnridden(db: Db, o: OrderId, env: Env, depth: nat)
    requires Inv(db) && o in db.orders && !Closed(db.orders[o].status) && !Riding(db.orders[o].status)
    ensures Sound(db, AdminCancel(db, o, env, depth))
  {
    hide InvDuring, Lawful, ReleaseThenClose, AdminRestore;
    var was := db.orders[o];
    var row := was.(status := Cancelled, offered := None, reserved := None);
    var last := ClearRoute(row);
    RowPartsOf(db, o, None);
    CancelledRow(was);
    UnriddenClosed(db, o, row, env, depth);
    var c := Put(db, o, last).(parked := Unpark(db.parked, o));
    if was.offered.Some? {
      var d := was.offered.value;
      OfferedIsSearching(db, o);
      OfferedIsOnline(db, d, None);
      AdminLocal(db, d);
      WithdrawCloses(db, o, d, last, AdminRestore(db, d));
      AdminCommutes(db, o, d, last);
    } else {
      CloseUnridden(db, o, last);
    }
  }

  lemma AdminCommutes(db: Db, o: OrderId, d: DriverId, last: Order)
    requires d in db.drivers
    ensures AdminRestore(Put(db, o, last).(parked := Unpark(db.parked, o)), d)
         == Put(AdminRestore(db, d), o, last).(parked := Unpark(db.parked, o))
  {
  }

  // ---------------------------------------------------------------- driver

  lemma AwayLocal(db: Db, d: DriverId)
    requires d in db.drivers
    ensures OnlyDriver(db, SetAway(db, d), d) && SetAway(db, d).drivers[d].status == Away
  {
    hide MaxPosition;
  }

  lemma OffLineAwayLocal(db: Db, d: DriverId)
    requires d in db.drivers
    ensures OnlyDriver(db, OffLine(SetAway(db, d), d), d) && OffLine(SetAway(db, d), d).drivers[d].status == Offline
    ensures OnlyDriver(db, SetAway(OffLine(db, d), d), d) && SetAway(OffLine(db, d), d).drivers[d].status == Away
  {
    hide OnlyDriver;
    AwayLocal(db, d);
    OffLineIsLocal(db, d);
    AwayLocal(OffLine(db, d), d);
    OffLineIsLocal(SetAway(db, d), d);
    LocalThen(db, OffLine(db, d), SetAway(OffLine(db, d), d), d);
    LocalThen(db, SetAway(db, d), OffLine(SetAway(db, d), d), d);
  }

  lemma AsideLocal(db: Db, d: DriverId, row: Order)
    requires d in db.drivers
    ensures OnlyDriver(db, StepAside(db, d, row), d) && StepAside(db, d, row).drivers[d].status != Online
  {
    hide OnlyDriver, SetAway, OffLine;
    AwayLocal(db, d);
    OffLineAwayLocal(db, d);
  }

  // Asking a driver who is off the line which line he wants changes nothing else.
  lemma AwaySound(db: Db, r: Outcome, d: DriverId)
    requires Sound(db, r)
    requires r.Done? ==> d in r.db.drivers && r.db.drivers[d].status != Online
    ensures Sound(db, ThenAway(r, d))
    ensures r.Done? ==> ThenAway(r, d).db.orders == r.db.orders
  {
    hide InvDuring, Lawful, SetAway, OnlyDriver;
    if r.Done? {
      AwayLocal(r.db, d);
      NotOffered(r.db, d, None);
      DriverMoves(r.db, SetAway(r.db, d), d, None);
      SameOrders(r.db, SetAway(r.db, d), d);
      LawfulSame(db, r.db, SetAway(r.db, d));
    }
  }

  lemma PromotedDriver(db: Db, env: Env, depth: nat)
    requires Inv(db)
    ensures TryPromote(db, env, depth).db.drivers == db.drivers
  {
    TryPromoteKeeps(db, env, depth, None);
  }

  // A passenger who backs out, or never comes, ends the ride like a completion.
  lemma DriverCancelSound(db: Db, d: DriverId, reason: DriverReason, env: Env, depth: nat)
    requires Inv(db) && reason != CarBroken
    ensures Sound(db, DriverCancel(db, d, reason, env, depth))
    ensures var r := DriverCancel(db, d, reason, env, depth);
      r.Done? && HasClaim(db.orders, d, Ride) ==> HandedOver(db, r.db, d)
  {
    hide InvDuring, Lawful, RideOf, ReleaseRouteOffers, Released, Ended, HandedOver, TryPromote, StepAside, ClosedRow;
    hide LeftIfTemporary, Promote;
    LawfulRefl(db);
    RideOfIsRide(db, d, None);
    if RideOf(db, d).Some? {
      var o := RideOf(db, d).value;
      RiderKnown(db, o, d);
      ReleaseFirstKeeps(db, o, d, env, depth);
      var r := ReleaseRouteOffers(db, o, env, depth);
      if r.Done? {
        ReleasedRow(db, r.db, o, d);
        CloseRow(db, o, d, Cancelled);
        var row := r.db.orders[o].(status := Cancelled);
        var c := Put(r.db, o, row);
        CloseReleased(db, r.db, o, d, row);
        EndedDriver(db, c, d);
        TripLocals(c, d, row);
        AsideLocal(c, d, row);
        HandOnSound(db, c, LeftIfTemporary(c, d, row), StepAside(c, d, row), d, env);
        assert ReservationOf(LeftIfTemporary(c, d, row), d) == ReservationOf(c, d) by {
          SameOrders(c, LeftIfTemporary(c, d, row), d);
        }
        if ReservationOf(c, d).None? {
          var idle := StepAside(c, d, row);
          PromoteSound(db, idle, env, depth);
          HandedOverStays(db, idle, d, env, depth);
          PromotedDriver(idle, env, depth);
          AwaySound(db, TryPromote(idle, env, depth), d);
          if TryPromote(idle, env, depth).Done? {
            HandedOverSame(db, TryPromote(idle, env, depth).db, ThenAway(TryPromote(idle, env, depth), d).db, d);
          }
        }
      }
    }
  }

  lemma ReleasedRow(db: Db, r: Db, o: OrderId, d: DriverId)
    requires Released(db, r, o, d)
    ensures o in db.orders && o in r.orders && r.orders[o] == db.orders[o] && d in r.drivers && d in db.drivers
    ensures r.drivers == db.drivers
  {
  }

  lemma HandedOverSame(db: Db, r: Db, r': Db, d: DriverId)
    requires HandedOver(db, r, d) && r'.orders == r.orders
    ensures HandedOver(db, r', d)
  {
  }
}
