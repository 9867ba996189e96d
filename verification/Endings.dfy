// How every order and every ride ends, told in the fields of the tables: the status it
// ends with, whose it is then, and what becomes of its driver.
module Endings {
  import opened Options
  import opened DispatchState
  import opened OrderTable
  import opened DriverLine
  import opened Cascade
  import opened CascadeInv
  import opened Frames
  import opened PassengerQueue
  import opened Transactions
  import opened Trips
  import opened Handoff
  import opened OfferSteps
  import opened RouteSteps
  import opened TripSteps
  import opened TripSafety
  import opened CancelSafety
  import opened BrokenEnds
  import opened Protocol
  import opened Dispatched
  import opened Prompts
  import opened Answers
  import opened Taking

  // ---------------------------------------------------------------- pieces

  // Closing the cards of a trip brings nobody into the queue who is not free.
  lemma {:induction false} ReleaseEachJoins(db: Db, rows: seq<OrderId>, env: Env, depth: nat)
    ensures Joined(db, ReleaseEach(db, rows, env, depth).db)
    decreases |rows|
  {
    hide Fallback, Joined, Discreet;
    SameJoins(db, db);
    if rows != [] {
      if rows[0] !in db.orders { ReleaseEachJoins(db, rows[1..], env, depth); }
      else {
        var o := rows[0];
        var cleared := Put(db, o, ClearRoute(db.orders[o]));
        SameJoins(db, cleared);
        FallPrompts(cleared, o, false, env, depth);
        var f := Fallback(cleared, o, false, env, depth);
        DiscreetJoins(cleared, f.db);
        JoinThen(db, cleared, f.db);
        var next := if Candidate(db.orders[o].status) then f.db else cleared;
        ReleaseEachJoins(next, rows[1..], env, depth);
        JoinThen(db, next, ReleaseEach(next, rows[1..], env, depth).db);
      }
    }
  }

  lemma ReleaseJoins(db: Db, trip: OrderId, env: Env, depth: nat)
    ensures Joined(db, ReleaseRouteOffers(db, trip, env, depth).db)
  {
    hide Joined, ReleaseEach;
    ReleaseEachJoins(db, Routed(db.orders, trip, db.nextOrder), env, depth);
  }

  // Every order that had a card for the trip has none afterwards, and is past its
  // fallback; no other order changes.
  lemma {:induction false} ReleaseEachFalls(db: Db, rows: seq<OrderId>, env: Env, depth: nat, e: Option<DriverId>)
    requires InvDuring(db, e)
    requires forall a :: a in rows ==> a in db.orders && db.orders[a].slot.driver.Some?
    requires forall i, j :: 0 <= i < j < |rows| ==> rows[i] < rows[j]
    requires ReleaseEach(db, rows, env, depth).Done?
    ensures var r := ReleaseEach(db, rows, env, depth).db;
      && (forall a :: a in rows ==> a in r.orders && r.orders[a].slot.driver.None? && r.orders[a].fallback)
      && (forall a :: a in db.orders && a !in rows ==> a in r.orders && r.orders[a] == db.orders[a])
    decreases |rows|
  {
    hide InvDuring, Calm, Fallback;
    if rows != [] {
      var o := rows[0];
      assert o in rows;
      assert rows == [o] + rows[1..];
      ReleaseOne(db, o, env, depth, e);
      var f := Fallback(Put(db, o, ClearRoute(db.orders[o])), o, false, env, depth).db;
      LaterRows(rows);
      forall a | a in rows[1..] ensures a in f.orders && f.orders[a].slot.driver.Some? { assert a in rows && a != o; }
      ReleaseEachFalls(f, rows[1..], env, depth, e);
    }
  }

  lemma LaterRows(rows: seq<OrderId>)
    requires rows != [] && forall i, j :: 0 <= i < j < |rows| ==> rows[i] < rows[j]
    ensures rows[0] !in rows[1..]
  {
    forall a | a in rows[1..] ensures a != rows[0] {
      var i :| 0 <= i < |rows| - 1 && rows[1..][i] == a;
      assert rows[0] < rows[i + 1];
    }
  }

  lemma ReleaseFalls(db: Db, trip: OrderId, env: Env, depth: nat, e: Option<DriverId>)
    requires InvDuring(db, e) && ReleaseRouteOffers(db, trip, env, depth).Done?
    ensures var r := ReleaseRouteOffers(db, trip, env, depth).db;
      forall a: OrderId :: a in db.orders ==>
        && a in r.orders
        && if db.orders[a].slot.driver.Some? && db.orders[a].slot.trip == Some(trip)
           then r.orders[a].slot.driver.None? && r.orders[a].fallback
           else r.orders[a] == db.orders[a]
  {
    hide OrdersInv, Seated, ParkedOk, DistinctPositions, ReleaseEach;
    ReleaseEachFalls(db, Routed(db.orders, trip, db.nextOrder), env, depth, e);
  }

  // Nobody but the free comes, nobody goes.
  lemma SameStanding(db: Db, r: Db, d: DriverId)
    requires Joined(db, r) && Calm(db, r) && (d !in db.drivers || db.drivers[d].status != Online)
    ensures d in r.queue <==> d in db.queue
  {
  }

  // The reservation of the driver becomes his next ride.
  function NextRide(row: Order, now: nat): (r: Order)
    ensures r.request == row.request && r.driver == row.driver
  {
    row.(status := Assigned, reserved := None, etaChosen := false, notes := row.notes.(departed := Some(now)))
  }

  // What hangs on an ended ride: the driver is moved in one way if his reservation
  // becomes his ride, and in another if he has none.
  lemma HandOnDoes(db: Db, e: Db, o: OrderId, moved: Db, idle: Db, d: DriverId, env: Env)
    requires Inv(db) && Ended(db, e, d) && o in e.orders && Closed(e.orders[o].status)
    requires OnlyDriver(e, moved, d) && OnlyDriver(e, idle, d)
    ensures var h := HandOn(moved, idle, d, env); var res := HasClaim(db.orders, d, Reservation);
      && o in h.orders && h.orders[o] == e.orders[o]
      && (forall a :: a in db.orders && Owns(db.orders[a], d, Reservation) ==>
            a in h.orders && h.orders[a] == NextRide(db.orders[a], env.now))
      && h == (if res then moved else idle).(orders := h.orders)
  {
    hide InvDuring, OnlyDriver, ReservationOf, RowOk, Lawful;
    SameOrders(e, moved, d);
    SameOrders(e, idle, d);
    ReservationOfIsReservation(e, d, Some(d));
    assert ReservationOf(moved, d) == ReservationOf(e, d) by { SameReservation(e, moved, d); }
    ReservationOfIsReservation(db, d, None);
    ReservesSame(db, e, d);
    var a := ReservationOf(e, d);
    if a.Some? {
      OneReservation(e, a.value, d);
      ReservedRowIs(db, a.value, d);
    }
  }

  lemma SameReservation(e: Db, moved: Db, d: DriverId)
    requires moved.orders == e.orders && moved.nextOrder == e.nextOrder
    ensures ReservationOf(moved, d) == ReservationOf(e, d)
  {
  }

  lemma ReservesSame(db: Db, e: Db, d: DriverId)
    requires Ended(db, e, d)
    ensures HasClaim(db.orders, d, Reservation) <==> HasClaim(e.orders, d, Reservation)
    ensures forall a :: a in db.orders && Owns(db.orders[a], d, Reservation) ==>
              a in e.orders && e.orders[a] == db.orders[a]
    ensures forall a :: a in e.orders && Owns(e.orders[a], d, Reservation) ==>
              a in db.orders && db.orders[a] == e.orders[a]
  {
    hide InvDuring, Lawful;
  }

  lemma ReservedRowIs(db: Db, a: OrderId, d: DriverId)
    requires Inv(db) && a in db.orders && Owns(db.orders[a], d, Reservation)
    ensures db.orders[a].driver == Some(d) && db.orders[a].reserved == Some(d)
    ensures db.orders[a].status == ParallelAssigned
  {
    assert RowOk(db.orders[a]);
  }

  // The driver's one ride.
  lemma TheRide(db: Db, o: OrderId, d: DriverId)
    requires Inv(db) && o in db.orders && Owns(db.orders[o], d, Ride)
    ensures RideOf(db, d) == Some(o)
    ensures d in db.drivers && db.drivers[d].status != Online && !IsParked(db.parked, o)
    ensures var row := db.orders[o];
      && row.driver == Some(d) && row.status in {Assigned, Arrived, InProgress} && row.offered.None?
      && row.reserved.None?
      && row.slot == NO_ROUTE_OFFER
  {
    hide InvDuring, RideOf, IsParked;
    RideOfIsRide(db, d, None);
    SlotsOnRide(db, o, d);
    RiderKnown(db, o, d);
    CloseRow(db, o, d, Cancelled);
    NotParkedUnlessQueued(db, o);
  }

  // ---------------------------------------------------------------- completion

  lemma EndingIsStep(db: Db, ev: Event, env: Env, depth: nat)
    requires IsCancellation(ev)
    ensures var r := Ending(db, ev, env, depth);
      Attempt(db, ev, env, depth) == r && Step(db, ev, env, depth) == if r.Done? then r.db else db
  {
    hide Requesting, Ending, Claiming, Refusing, OnTheRide, OnTheLine, Timing;
  }

  // A finished ride is recorded as completed, and is still its driver's. With a
  // reservation he goes straight on to it; without one he is away, asked which line to
  // join. If he had joined the line for this order only, he is off it.
  lemma CompleteDoes(db: Db, o: OrderId, d: DriverId, env: Env, depth: nat)
    requires Inv(db) && o in db.orders && Owns(db.orders[o], d, Ride) && Attempt(db, Completes(d), env, depth).Done?
    ensures d in db.drivers
    ensures var r := Step(db, Completes(d), env, depth); var row := db.orders[o]; var him := db.drivers[d];
      && o in r.orders && r.orders[o] == row.(status := Completed) && r.orders[o].driver == Some(d)
      && (forall a :: a in db.orders && Owns(db.orders[a], d, Reservation) ==>
            a in r.orders && r.orders[a] == NextRide(db.orders[a], env.now))
      && r.drivers == db.drivers[d :=
           if HasClaim(db.orders, d, Reservation)
           then (if row.notes.claimedOffline then him.(onLine := false, status := Offline) else him)
           else him.(onLine := him.onLine && !row.notes.claimedOffline, status := Away)]
      && (d in r.queue <==> d in db.queue && !row.notes.claimedOffline)
      && (d in r.queue && !HasClaim(db.orders, d, Reservation) ==> r.queue[d].status == AwayRow)
  {
    hide InvDuring, Lawful, RideOf, EndRide, Ended, HandOn, SetAway, LeftIfTemporary, HasClaim, Attempt, Step;
    TheRide(db, o, d);
    EndingIsStep(db, Completes(d), env, depth);
    var row := db.orders[o].(status := Completed);
    CloseRow(db, o, d, Completed);
    EndRideKeeps(db, o, row, d, env, depth);
    var e := EndRide(db, o, row, env, depth);
    EndStands(db, o, row, d, env, depth);
    EndedDriver(db, e.db, d);
    TripLocals(e.db, d, row);
    var left := LeftIfTemporary(e.db, d, row);
    HandOnDoes(db, e.db, o, left, SetAway(left, d), d, env);
    LeftAwayIs(e.db, d, row);
  }

  lemma EndStands(db: Db, o: OrderId, row: Order, d: DriverId, env: Env, depth: nat)
    requires Inv(db) && o in db.orders && Owns(db.orders[o], d, Ride) && ClosedRow(db.orders[o], row)
    ensures var e := EndRide(db, o, row, env, depth); d in e.db.queue <==> d in db.queue
  {
    hide InvDuring, Calm, Lawful, ReleaseRouteOffers, Inv, Joined;
    RideCloses(db, o, row, d);
    var mid := Put(db, o, row);
    ReleaseKeeps(mid, o, env, depth, Some(d));
    ReleaseJoins(mid, o, env, depth);
    RiderKnown(db, o, d);
    SameStanding(mid, ReleaseRouteOffers(mid, o, env, depth).db, d);
  }

  lemma AwayIs(db: Db, d: DriverId)
    requires d in db.drivers
    ensures var away := SetAway(db, d);
      && away.drivers == db.drivers[d := db.drivers[d].(status := Away)] && away.queue.Keys == db.queue.Keys
      && (d in away.queue ==> away.queue[d].status == AwayRow)
  {
  }

  lemma OffIs(db: Db, d: DriverId)
    requires d in db.drivers
    ensures var off := OffLine(db, d);
      && off.drivers == db.drivers[d := db.drivers[d].(onLine := false, status := Offline)]
      && off.queue == db.queue - {d}
  {
    var him := db.drivers[d];
    assert db.drivers[d := him.(status := Offline)][d := him.(onLine := false, status := Offline)]
        == db.drivers[d := him.(onLine := false, status := Offline)];
  }

  lemma LeftAwayIs(db: Db, d: DriverId, row: Order)
    requires d in db.drivers
    ensures var left := LeftIfTemporary(db, d, row); var him := db.drivers[d];
      var away := SetAway(left, d);
      && left.drivers == db.drivers[d :=
           if row.notes.claimedOffline then him.(onLine := false, status := Offline) else him]
      && away.drivers == db.drivers[d := him.(onLine := him.onLine && !row.notes.claimedOffline, status := Away)]
      && (d in left.queue <==> d in db.queue && !row.notes.claimedOffline) && left.queue.Keys == away.queue.Keys
      && (d in away.queue ==> away.queue[d].status == AwayRow)
  {
    hide SetAway, OffLine;
    var him := db.drivers[d];
    OffIs(db, d);
    AwayIs(LeftIfTemporary(db, d, row), d);
    if row.notes.claimedOffline {
      Overwritten(db.drivers, d, him.(onLine := false, status := Offline), him.(onLine := false, status := Away));
    } else {
      Overwritten(db.drivers, d, him, him);
      assert db.drivers[d := him] == db.drivers;
    }
  }

  lemma Overwritten(drivers: map<DriverId, Driver>, d: DriverId, a: Driver, b: Driver)
    ensures drivers[d := a][d := b] == drivers[d := b]
  {
  }

  // ---------------------------------------------------------------- cancellation

  lemma RestoreIs(db: Db, d: DriverId)
    requires d in db.drivers
    ensures RestorePosition(db, d).drivers
         == db.drivers[d := db.drivers[d].(status := if d in db.queue then Online else Offline)]
  {
  }

  // What a cancelled ride leaves behind: the order cancelled and still its driver's, his
  // reservation his next ride, or himself as stated.
  ghost predicate RideOff(db: Db, r: Db, o: OrderId, d: DriverId, now: nat, idle: DriverStatus)
    requires o in db.orders && d in db.drivers
  {
    && o in r.orders && r.orders[o] == db.orders[o].(status := Cancelled) && !IsParked(r.parked, o)
    && (forall a :: a in db.orders && Owns(db.orders[a], d, Reservation) ==>
          a in r.orders && r.orders[a] == NextRide(db.orders[a], now))
    && r.drivers == (
         if HasClaim(db.orders, d, Reservation) then db.drivers
         else db.drivers[d := db.drivers[d].(status := idle)])
  }

  // Handing on after a cancelled ride.
  lemma HandsOff(db: Db, c: Db, o: OrderId, idle: Db, d: DriverId, env: Env, status: DriverStatus)
    requires Inv(db) && o in db.orders && Owns(db.orders[o], d, Ride) && d in db.drivers
    requires Ended(db, c, d) && o in c.orders && c.orders[o] == db.orders[o].(status := Cancelled)
    requires d in c.drivers && c.drivers == db.drivers
    requires OnlyDriver(c, idle, d) && idle.drivers == c.drivers[d := c.drivers[d].(status := status)]
    ensures var h := HandOn(c, idle, d, env); Inv(h) && RideOff(db, h, o, d, env.now, status)
  {
    hide InvDuring, Lawful, Ended, HandOn, HasClaim, IsParked, OnlyDriver, HandedOver;
    StaysLocal(c, d);
    EndedDriver(db, c, d);
    HandOnDoes(db, c, o, c, idle, d, env);
    HandOnSound(db, c, c, idle, d, env);
    NotParkedUnlessQueued(HandOn(c, idle, d, env), o);
  }

  // The check afterwards leaves all that alone.
  lemma RideOffChecked(db: Db, h: Db, o: OrderId, d: DriverId, env: Env, depth: nat, status: DriverStatus)
    requires Inv(db) && Inv(h) && o in db.orders && d in db.drivers && RideOff(db, h, o, d, env.now, status)
    ensures RideOff(db, TryPromote(h, env, depth).db, o, d, env.now, status)
  {
    hide InvDuring, Calm, TryPromote, IsParked, HasClaim;
    var r := TryPromote(h, env, depth).db;
    TryPromoteKeeps(h, env, depth, None);
    CalmFrame(h, r);
    CalmRow(h, r, o);
    NotParkedUnlessQueued(r, o);
    forall a | a in db.orders && Owns(db.orders[a], d, Reservation)
      ensures a in r.orders && r.orders[a] == NextRide(db.orders[a], env.now)
    {
      CalmRow(h, r, a);
      ReservedRowIs(db, a, d);
      assert Owns(h.orders[a], d, Ride);
    }
  }

  // The passenger cancels the ride before it has begun; the driver is free at his old
  // place, if he has one.
  lemma PassengerCancelsRide(db: Db, o: OrderId, d: DriverId, env: Env, depth: nat)
    requires Inv(db) && o in db.orders && Owns(db.orders[o], d, Ride)
    requires Attempt(db, PassengerCancels(o), env, depth).Done?
    ensures d in db.drivers
    ensures var r := Step(db, PassengerCancels(o), env, depth);
      if db.orders[o].status == InProgress then r == db
      else RideOff(db, r, o, d, env.now, if d in db.queue then Online else Offline)
  {
    hide InvDuring, Lawful, EndRide, Ended, HandOn, Attempt, Step, TryPromote, RestorePosition, Remove, RideOff;
    TheRide(db, o, d);
    EndingIsStep(db, PassengerCancels(o), env, depth);
    if db.orders[o].status != InProgress {
      var row := db.orders[o].(status := Cancelled);
      CloseRow(db, o, d, Cancelled);
      EndRideKeeps(db, o, row, d, env, depth);
      EndStands(db, o, row, d, env, depth);
      var e := EndRide(db, o, row, env, depth);
      assert e.Done?;
      EndedRemove(db, e.db, o, d);
      var c := Remove(e.db, o);
      RemoveQueue(e.db, o);
      EndedDriver(db, c, d);
      RestoreIsLocal(c, d);
      RestoreIs(c, d);
      var free := if d in db.queue then Online else Offline;
      HandsOff(db, c, o, RestorePosition(c, d), d, env, free);
      RideOffChecked(db, HandOn(c, RestorePosition(c, d), d, env), o, d, env, depth, free);
    }
  }

  lemma RemoveQueue(db: Db, o: OrderId)
    requires o in db.orders
    ensures Remove(db, o).queue == db.queue
  {
  }

  // The passenger cancels an order that is nobody's ride. An order reported as
  // unavailable has no such button. Nobody is left with it.
  lemma PassengerCancelsOrder(db: Db, o: OrderId, env: Env, depth: nat)
    requires Inv(db) && o in db.orders && db.orders[o].status !in {Assigned, Arrived, InProgress}
    requires Attempt(db, PassengerCancels(o), env, depth).Done?
    ensures var r := Step(db, PassengerCancels(o), env, depth); var row := db.orders[o];
      if row.status in {NoDrivers, Completed, Cancelled} then r == db
      else
        && o in r.orders && !IsParked(r.parked, o) && r.drivers == db.drivers
        && r.orders[o]
             == row.(status := Cancelled, driver := None, offered := None, reserved := None, slot := NO_ROUTE_OFFER)
  {
    hide InvDuring, Lawful, TryPromote, PassengerCancel, Attempt, Step, IsParked, Withdrawing, RowOk;
    EndingIsStep(db, PassengerCancels(o), env, depth);
    UnriddenRow(db, o);
    if PassengerMayCancel(db.orders[o]) {
      WithdrawingIs(db, o, env, depth);
      WithdrawingKeeps(db, o, env);
      ClosedCheck(Withdrawing(db, o), o, env, depth);
    } else {
      NotCancelled(db, o, env, depth);
    }
  }

  lemma NotCancelled(db: Db, o: OrderId, env: Env, depth: nat)
    requires o in db.orders && !PassengerMayCancel(db.orders[o])
    ensures PassengerCancel(db, o, env, depth) == Done(db, false)
  {
  }

  // The order closed, and whoever was looking at it, or had put it behind his ride, let
  // go.
  function Withdrawing(db: Db, o: OrderId): (r: Db)
    requires o in db.orders
  {
    var row := ClearRoute(db.orders[o].(status := Cancelled));
    var c := Put(db, o, row).(parked := Unpark(db.parked, o));
    if row.driver.None? then WithdrawOffer(c, o) else Put(c, o, row.(reserved := None, driver := None))
  }

  lemma WithdrawingIs(db: Db, o: OrderId, env: Env, depth: nat)
    requires Inv(db) && o in db.orders && db.orders[o].status !in {Assigned, Arrived, InProgress}
    requires PassengerMayCancel(db.orders[o])
    ensures PassengerCancel(db, o, env, depth) == TryPromote(Withdrawing(db, o), env, depth)
  {
    hide InvDuring, TryPromote, ReleaseRouteOffers, WithdrawOffer, Unpark, RowOk;
    var was := db.orders[o];
    UnriddenRow(db, o);
    NothingToRelease(db, o, was.(status := Cancelled), env, depth);
    OverwriteRow(db.orders, o, was.(status := Cancelled), ClearRoute(was.(status := Cancelled)));
  }

  lemma WithdrawingKeeps(db: Db, o: OrderId, env: Env)
    requires Inv(db) && o in db.orders && db.orders[o].status !in {Assigned, Arrived, InProgress}
    requires PassengerMayCancel(db.orders[o])
    ensures var r := Withdrawing(db, o);
      && Inv(r) && o in r.orders && r.drivers == db.drivers
      && r.orders[o] == db.orders[o].(status := Cancelled, driver := None, offered := None, reserved := None,
                                      slot := NO_ROUTE_OFFER)
  {
    hide InvDuring, Lawful, WithdrawOffer, Unpark, RowOk, ClosedRow;
    var was := db.orders[o];
    UnriddenRow(db, o);
    var row := ClearRoute(was.(status := Cancelled));
    if was.driver.None? {
      CancelledOffer(db, o);
      WithdrawIs(db, Put(db, o, row).(parked := Unpark(db.parked, o)), o, row, env);
    } else {
      var last := row.(reserved := None, driver := None);
      CancelledRow(was);
      CloseUnridden(db, o, last);
      OverwriteRow(db.orders, o, row, last);
    }
  }

  lemma UnriddenRow(db: Db, o: OrderId)
    requires Inv(db) && o in db.orders && db.orders[o].status !in {Assigned, Arrived, InProgress}
    ensures RowOk(db.orders[o])
    ensures Holder(db.orders[o]).Some? ==> Holder(db.orders[o]).value.kind != Ride
    ensures db.orders[o].status !in {ParallelAssigned, Completed, Cancelled} ==>
              db.orders[o].driver.None? && db.orders[o].reserved.None?
    ensures db.orders[o].status == ParallelAssigned ==>
              db.orders[o].driver.Some? && db.orders[o].reserved.Some? && db.orders[o].offered.None?
  {
    assert RowOk(db.orders[o]);
  }

  lemma ClosedCheck(h: Db, o: OrderId, env: Env, depth: nat)
    requires Inv(h) && o in h.orders && Closed(h.orders[o].status)
    ensures var r := TryPromote(h, env, depth).db;
      o in r.orders && r.orders[o] == h.orders[o] && !IsParked(r.parked, o) && r.drivers == h.drivers
  {
    hide InvDuring, Calm, TryPromote, IsParked;
    var r := TryPromote(h, env, depth).db;
    TryPromoteKeeps(h, env, depth, None);
    CalmFrame(h, r);
    CalmRow(h, r, o);
    NotParkedUnlessQueued(r, o);
  }

  // The driver who was still looking at the order is let go, where he stands.
  lemma WithdrawIs(db: Db, c: Db, o: OrderId, row: Order, env: Env)
    requires Inv(db) && o in db.orders && db.orders[o].driver.None?
    requires row.offered == db.orders[o].offered && c == Put(db, o, row).(parked := Unpark(db.parked, o))
    ensures var w := WithdrawOffer(c, o);
      && o in w.orders && w.orders[o] == row.(offered := None) && w.drivers == db.drivers
      && (db.orders[o].offered.Some? ==>
            var d := db.orders[o].offered.value; d in w.queue && w.queue[d].status == Waiting)
  {
    hide Unpark, InvDuring;
    if row.offered.Some? {
      var d := row.offered.value;
      OfferedIsSearching(db, o);
      OfferedRow(db, o, d, env);
      assert c.drivers[d := c.drivers[d].(status := Online)] == c.drivers;
    }
  }

  // ---------------------------------------------------------------- the dispatcher and the administrator

  lemma ReleasedStands(db: Db, o: OrderId, d: DriverId, env: Env, depth: nat)
    requires Inv(db) && o in db.orders && Owns(db.orders[o], d, Ride)
    ensures var r := ReleaseRouteOffers(db, o, env, depth).db; d in r.queue <==> d in db.queue
    ensures forall row :: var r := ReleaseThenClose(db, o, row, env, depth).db; d in r.queue <==> d in db.queue
  {
    hide InvDuring, Calm, ReleaseRouteOffers, Inv, Joined;
    ReleaseKeeps(db, o, env, depth, None) by { InvIs(db); }
    ReleaseJoins(db, o, env, depth);
    RiderKnown(db, o, d);
    SameStanding(db, ReleaseRouteOffers(db, o, env, depth).db, d);
  }

  lemma InvIs(db: Db)
    requires Inv(db)
    ensures InvDuring(db, None)
  {
  }

  lemma DispatcherCancelsRide(db: Db, o: OrderId, d: DriverId, env: Env, depth: nat)
    requires Inv(db) && o in db.orders && Owns(db.orders[o], d, Ride)
    requires Attempt(db, DispatcherCancels(o), env, depth).Done?
    ensures d in db.drivers
    ensures var r := Step(db, DispatcherCancels(o), env, depth);
      if !db.orders[o].request.byDispatcher then r == db
      else RideOff(db, r, o, d, env.now, if d in db.queue then Online else Offline)
  {
    hide InvDuring, Lawful, ReleaseThenClose, Ended, HandOn, Attempt, Step, RestorePosition, RideOff;
    TheRide(db, o, d);
    EndingIsStep(db, DispatcherCancels(o), env, depth);
    if db.orders[o].request.byDispatcher {
      var row := db.orders[o].(status := Cancelled);
      CloseRow(db, o, d, Cancelled);
      ReleaseThenCloseKeeps(db, o, d, row, env, depth);
      var c := ReleaseThenClose(db, o, row, env, depth);
      assert c.Done?;
      ReleasedStands(db, o, d, env, depth);
      EndedDriver(db, c.db, d);
      RestoreIsLocal(c.db, d);
      RestoreIs(c.db, d);
      HandsOff(db, c.db, o, RestorePosition(c.db, d), d, env, if d in db.queue then Online else Offline);
    }
  }

  // A dispatcher's order that nobody has: whoever was looking at it waits again.
  lemma DispatcherCancelsOrder(db: Db, o: OrderId, env: Env, depth: nat)
    requires Inv(db) && o in db.orders
    requires db.orders[o].status !in {Assigned, Arrived, InProgress, ParallelAssigned}
    ensures var r := Step(db, DispatcherCancels(o), env, depth); var row := db.orders[o];
      if !row.request.byDispatcher || row.status in {NoDrivers, Completed, Cancelled} then r == db
      else
        && o in r.orders && r.orders[o] == row.(status := Cancelled, offered := None, slot := NO_ROUTE_OFFER)
        && r.orders[o].driver.None? && r.drivers == db.drivers && r.parked == Unpark(db.parked, o)
        && (row.offered.Some? ==> row.offered.value in r.queue && r.queue[row.offered.value].status == Waiting)
  {
    hide InvDuring, WithdrawOffer, Attempt, Step, Unpark, DispatcherCancel, RowOk;
    EndingIsStep(db, DispatcherCancels(o), env, depth);
    UnriddenRow(db, o);
    DispatcherCloses(db, o, env, depth);
    if DispatcherMayCancel(db.orders[o]) {
      var row := db.orders[o].(status := Cancelled);
      var c := Put(db, o, ClearRoute(row)).(parked := Unpark(db.parked, o));
      WithdrawIs(db, c, o, ClearRoute(row), env);
      WithdrawParks(c, o);
    }
  }

  lemma DispatcherCloses(db: Db, o: OrderId, env: Env, depth: nat)
    requires Inv(db) && o in db.orders
    requires db.orders[o].status !in {Assigned, Arrived, InProgress, ParallelAssigned}
    ensures DispatcherCancel(db, o, env, depth) == Done(
              if !DispatcherMayCancel(db.orders[o]) then db
              else WithdrawOffer(Put(db, o, ClearRoute(db.orders[o].(status := Cancelled)))
                                   .(parked := Unpark(db.parked, o)), o), false)
  {
    hide InvDuring, WithdrawOffer, Unpark, ReleaseThenClose, RowOk;
    UnriddenRow(db, o);
    if DispatcherMayCancel(db.orders[o]) { UnriddenClosed(db, o, db.orders[o].(status := Cancelled), env, depth); }
  }

  lemma WithdrawParks(db: Db, o: OrderId)
    requires o in db.orders
    ensures WithdrawOffer(db, o).parked == db.parked
  {
  }

  // The administrator may cancel at any time; the driver gets his place back only if he
  // is on the line.
  lemma AdminCancelsRide(db: Db, o: OrderId, d: DriverId, env: Env, depth: nat)
    requires Inv(db) && o in db.orders && Owns(db.orders[o], d, Ride)
    requires Attempt(db, AdminCancels(o), env, depth).Done?
    ensures d in db.drivers
    ensures var r := Step(db, AdminCancels(o), env, depth); var him := db.drivers[d];
      RideOff(db, r, o, d, env.now,
              if d in db.queue && him.onLine then Online else if d !in db.queue then Offline else him.status)
  {
    hide InvDuring, Lawful, ReleaseThenClose, Ended, HandOn, Attempt, Step, AdminRestore, RideOff;
    TheRide(db, o, d);
    EndingIsStep(db, AdminCancels(o), env, depth);
    var row := db.orders[o].(status := Cancelled, offered := None, reserved := None);
    assert row == db.orders[o].(status := Cancelled);
    CloseRow(db, o, d, Cancelled);
    ReleaseThenCloseKeeps(db, o, d, row, env, depth);
    var c := ReleaseThenClose(db, o, row, env, depth);
    assert c.Done?;
    ReleasedStands(db, o, d, env, depth);
    EndedDriver(db, c.db, d);
    AdminLocal(c.db, d);
    AdminIs(c.db, d);
    var him := db.drivers[d];
    HandsOff(db, c.db, o, AdminRestore(c.db, d), d, env,
             if d in db.queue && him.onLine then Online else if d !in db.queue then Offline else him.status);
  }

  lemma AdminIs(db: Db, d: DriverId)
    requires d in db.drivers
    ensures var him := db.drivers[d];
      AdminRestore(db, d).drivers == db.drivers[d := him.(status :=
        if d in db.queue && him.onLine then Online else if d !in db.queue then Offline else him.status)]
  {
    assert db.drivers[d := db.drivers[d]] == db.drivers;
  }

  lemma AdminCancelsOrder(db: Db, o: OrderId, env: Env, depth: nat)
    requires Inv(db) && o in db.orders && db.orders[o].status !in {Assigned, Arrived, InProgress}
    ensures var r := Step(db, AdminCancels(o), env, depth); var row := db.orders[o];
      if row.status in {Completed, Cancelled} then r == db
      else
        && o in r.orders && r.drivers == db.drivers && r.parked == Unpark(db.parked, o)
        && r.orders[o] == row.(status := Cancelled, offered := None, reserved := None, slot := NO_ROUTE_OFFER)
  {
    hide InvDuring, AdminRestore, Attempt, Step, Unpark, AdminCancel, RowOk;
    EndingIsStep(db, AdminCancels(o), env, depth);
    UnriddenRow(db, o);
    AdminCloses(db, o, env, depth);
    var was := db.orders[o];
    if was.offered.Some? && !Closed(was.status) {
      var d := was.offered.value;
      OfferedIsSearching(db, o);
      OfferedRow(db, o, d, env);
      var c := Put(db, o, ClearRoute(was.(status := Cancelled, offered := None, reserved := None)))
                 .(parked := Unpark(db.parked, o));
      AdminIs(c, d);
      assert db.drivers[d := db.drivers[d]] == db.drivers;
      AdminParks(c, d);
    }
  }

  lemma AdminCloses(db: Db, o: OrderId, env: Env, depth: nat)
    requires Inv(db) && o in db.orders && db.orders[o].status !in {Assigned, Arrived, InProgress}
    ensures var was := db.orders[o];
      var c := Put(db, o, ClearRoute(was.(status := Cancelled, offered := None, reserved := None)))
                 .(parked := Unpark(db.parked, o));
      AdminCancel(db, o, env, depth) == Done(
        if Closed(was.status) then db
        else if was.offered.Some? && was.offered.value in db.drivers then AdminRestore(c, was.offered.value)
        else c, false)
  {
    hide InvDuring, AdminRestore, Unpark, ReleaseThenClose, RowOk;
    UnriddenRow(db, o);
    var was := db.orders[o];
    if !Closed(was.status) {
      UnriddenClosed(db, o, was.(status := Cancelled, offered := None, reserved := None), env, depth);
    }
  }

  lemma AdminParks(db: Db, d: DriverId)
    requires d in db.drivers
    ensures AdminRestore(db, d).parked == db.parked && AdminRestore(db, d).orders == db.orders
  {
  }

  // ---------------------------------------------------------------- the driver

  // The driver reports that the passenger cancels or never came: the order is cancelled
  // and still his. With a reservation he goes on to it, as after a completed ride;
  // without one he is away.
  lemma DriverCancelDoes(db: Db, o: OrderId, d: DriverId, why: DriverReason, env: Env, depth: nat)
    requires Inv(db) && o in db.orders && Owns(db.orders[o], d, Ride) && why != CarBroken
    requires Attempt(db, DriverCancels(d, why), env, depth).Done?
    ensures d in db.drivers
    ensures var r := Step(db, DriverCancels(d, why), env, depth); var row := db.orders[o]; var him := db.drivers[d];
      && o in r.orders && r.orders[o] == row.(status := Cancelled) && r.orders[o].driver == Some(d)
      && (forall a :: a in db.orders && Owns(db.orders[a], d, Reservation) ==>
            a in r.orders && r.orders[a] == NextRide(db.orders[a], env.now))
      && r.drivers == db.drivers[d :=
           if HasClaim(db.orders, d, Reservation)
           then (if row.notes.claimedOffline then him.(onLine := false, status := Offline) else him)
           else him.(onLine := him.onLine && !row.notes.claimedOffline, status := Away)]
      && (d in r.queue <==> d in db.queue && !row.notes.claimedOffline)
  {
    hide InvDuring, Lawful, RideOf, ReleaseRouteOffers, Ended, HandOn, HasClaim, Attempt, Step, Ending, ReservationOf;
    hide StepAside, LeftIfTemporary, TryPromote, ThenAway, Inv;
    TheRide(db, o, d);
    EndingIsStep(db, DriverCancels(d, why), env, depth);
    CancelledRide(db, o, d, env, depth);
    DriverCancelIs(db, o, d, why, env, depth);
    var row := db.orders[o].(status := Cancelled);
    var c := Put(ReleaseRouteOffers(db, o, env, depth).db, o, row);
    ReservedStill(db, c, d);
    if ReservationOf(c, d).Some? {
      LeftHandsOn(db, c, o, d, row, env);
    } else {
      AsideKeeps(db, c, d, row, env);
      AsideThenAway(c, o, d, row, env, depth);
    }
  }

  lemma CancelledRide(db: Db, o: OrderId, d: DriverId, env: Env, depth: nat)
    requires Inv(db) && o in db.orders && Owns(db.orders[o], d, Ride)
    ensures var r := ReleaseRouteOffers(db, o, env, depth); var row := db.orders[o].(status := Cancelled);
      r.Done? ==>
        && d in r.db.drivers && o in r.db.orders && r.db.orders[o] == db.orders[o]
        && var c := Put(r.db, o, row);
        && Ended(db, c, d) && o in c.orders && c.orders[o] == row && c.drivers == db.drivers
        && (d in c.queue <==> d in db.queue)
  {
    hide InvDuring, Lawful, ReleaseRouteOffers, Released, Ended, ClosedRow, Inv;
    CloseRow(db, o, d, Cancelled);
    ReleaseFirstKeeps(db, o, d, env, depth);
    ReleasedStands(db, o, d, env, depth);
    var r := ReleaseRouteOffers(db, o, env, depth);
    if r.Done? {
      ReleasedRow(db, r.db, o, d);
      CloseReleased(db, r.db, o, d, db.orders[o].(status := Cancelled));
    }
  }

  lemma LeftHandsOn(db: Db, c: Db, o: OrderId, d: DriverId, row: Order, env: Env)
    requires Inv(db) && Ended(db, c, d) && o in c.orders && c.orders[o] == row && Closed(row.status)
    requires d in db.drivers && d in c.drivers && c.drivers == db.drivers && HasClaim(db.orders, d, Reservation)
    ensures var h := HandOn(LeftIfTemporary(c, d, row), c, d, env); var him := db.drivers[d];
      && o in h.orders && h.orders[o] == row
      && (forall a :: a in db.orders && Owns(db.orders[a], d, Reservation) ==>
            a in h.orders && h.orders[a] == NextRide(db.orders[a], env.now))
      && h.drivers == db.drivers[d :=
           if row.notes.claimedOffline then him.(onLine := false, status := Offline) else him]
      && (d in h.queue <==> d in c.queue && !row.notes.claimedOffline)
  {
    hide InvDuring, Lawful, Ended, HandOn, HasClaim, LeftIfTemporary, Inv;
    EndedDriver(db, c, d);
    TripLocals(c, d, row);
    StaysLocal(c, d);
    HandOnDoes(db, c, o, LeftIfTemporary(c, d, row), c, d, env);
    LeftAwayIs(c, d, row);
  }

  lemma AsideKeeps(db: Db, c: Db, d: DriverId, row: Order, env: Env)
    requires Inv(db) && Ended(db, c, d) && d in c.drivers && ReservationOf(c, d).None?
    ensures Inv(StepAside(c, d, row))
  {
    hide InvDuring, Lawful, Ended, StepAside, ReservationOf;
    AsideLocal(c, d, row);
    IdleCloses(db, c, StepAside(c, d, row), d);
  }

  lemma DriverCancelIs(db: Db, o: OrderId, d: DriverId, why: DriverReason, env: Env, depth: nat)
    requires RideOf(db, d) == Some(o) && o in db.orders && d in db.drivers && why != CarBroken
    requires var r := ReleaseRouteOffers(db, o, env, depth);
      r.Done? ==> d in r.db.drivers && o in r.db.orders && r.db.orders[o] == db.orders[o]
    ensures var r := ReleaseRouteOffers(db, o, env, depth); var row := db.orders[o].(status := Cancelled);
      && (r.TooDeep? ==> Ending(db, DriverCancels(d, why), env, depth).TooDeep?)
      && (r.Done? ==>
            var c := Put(r.db, o, row);
            Ending(db, DriverCancels(d, why), env, depth) ==
              if ReservationOf(c, d).Some? then Done(HandOn(LeftIfTemporary(c, d, row), c, d, env), false)
              else ThenAway(TryPromote(StepAside(c, d, row), env, depth), d))
  {
    hide RideOf, ReleaseRouteOffers, StepAside, TryPromote, ThenAway;
    var r := ReleaseRouteOffers(db, o, env, depth);
    if r.Done? {
      var c := Put(r.db, o, db.orders[o].(status := Cancelled));
      SameReservation(c, LeftIfTemporary(c, d, c.orders[o]), d);
    }
  }

  lemma ReservedStill(db: Db, c: Db, d: DriverId)
    requires Ended(db, c, d)
    ensures ReservationOf(c, d).Some? <==> HasClaim(db.orders, d, Reservation)
    ensures ReservationOf(c, d).None? ==> forall a :: a in db.orders ==> !Owns(db.orders[a], d, Reservation)
  {
    hide InvDuring, Lawful, ReservationOf;
    ReservationOfIsReservation(c, d, Some(d));
    ReservesSame(db, c, d);
  }

  lemma AsideIs(db: Db, d: DriverId, row: Order)
    requires d in db.drivers
    ensures var aside := StepAside(db, d, row); var him := db.drivers[d];
      && aside.orders == db.orders
      && aside.drivers == db.drivers[d :=
           if row.notes.claimedOffline then him.(onLine := false, status := Offline) else him.(status := Away)]
      && (d in aside.queue <==> d in db.queue && !row.notes.claimedOffline)
  {
    hide SetAway, OffLine;
    var him := db.drivers[d];
    AwayIs(db, d);
    AwayOrders(db, d);
    OffIs(SetAway(db, d), d);
    Overwritten(db.drivers, d, him.(status := Away), him.(onLine := false, status := Offline));
  }

  lemma AwayOrders(db: Db, d: DriverId)
    requires d in db.drivers
    ensures SetAway(db, d).orders == db.orders && SetAway(db, d).parked == db.parked
  {
  }

  // Set aside, then the check, then asked which line to join.
  lemma AsideThenAway(c: Db, o: OrderId, d: DriverId, row: Order, env: Env, depth: nat)
    requires d in c.drivers && Inv(StepAside(c, d, row)) && o in c.orders && Closed(c.orders[o].status)
    ensures var t := ThenAway(TryPromote(StepAside(c, d, row), env, depth), d); var him := c.drivers[d];
      t.Done? ==>
        && o in t.db.orders && t.db.orders[o] == c.orders[o]
        && t.db.drivers == c.drivers[d := him.(onLine := him.onLine && !row.notes.claimedOffline, status := Away)]
        && (d in t.db.queue <==> d in c.queue && !row.notes.claimedOffline)
  {
    hide InvDuring, StepAside, TryPromote, SetAway, Calm, Joined, IsParked;
    AsideIs(c, d, row);
    var aside, him := StepAside(c, d, row), c.drivers[d];
    var t := TryPromote(aside, env, depth);
    ClosedCheck(aside, o, env, depth);
    TryPromoteKeeps(aside, env, depth, None);
    CheckJoins(aside, env, depth);
    SameStanding(aside, t.db, d);
    AwayIs(t.db, d);
    AwayOrders(t.db, d);
    var last := him.(onLine := him.onLine && !row.notes.claimedOffline, status := Away);
    Overwritten(c.drivers, d, aside.drivers[d], last);
  }
}
