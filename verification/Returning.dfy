// Orders that come back from drivers who are on a ride, told in the fields of the
// tables: declined and expired cards, reservations given up or left without a time.
module Returning {
  import opened Options
  import opened DispatchState
  import opened OrderTable
  import opened DriverLine
  import opened Cascade
  import opened CascadeInv
  import opened CascadeDepth
  import opened Frames
  import opened PassengerQueue
  import opened Transactions
  import opened Trips
  import opened Handoff
  import opened OfferSteps
  import opened RouteSteps
  import opened TripSteps
  import opened TripSafety
  import opened Protocol
  import opened Asking
  import opened Wedging
  import opened Dispatched
  import opened Answers
  import opened Taking

  // ---------------------------------------------------------------- cards

  // A fallback of an order nobody has, and what the opportunity check after it leaves.
  lemma AfterFallback(db: Db, o: OrderId, env: Env, depth: nat)
    requires Inv(db) && o in db.orders && depth >= 2
    requires db.orders[o].status in {Created, Queued, NoDrivers} && db.orders[o].driver.None?
    requires db.orders[o].reserved.None? && exists v :: StartsIn(db.orders[o], v)
    ensures var f := Fallback(db, o, false, env, depth); var t := ThenPromote(f, env, depth);
      && (f.Done? ==>
            o in f.db.orders && Falls(db, o, env, f.db.orders[o]) && f.db.drivers == db.drivers
            && OthersSame(db, f.db, o))
      && (t.Done? ==> f.Done? && o in t.db.orders && t.db.orders[o] == f.db.orders[o] && t.db.drivers == db.drivers)
  {
    hide InvDuring, Lawful, Fallback, Calm, Falls, Quiet, StartsIn, TryPromote, IsParked, RowOk, OthersSame;
    InvSteady(db, None);
    FallbackLeaves(db, o, env, depth);
    FallsAlone(db, o, false, env, depth);
    OpenRow(db, o);
    LawfulRefl(db);
    FallSound(db, db, o, env, depth);
    var f := Fallback(db, o, false, env, depth);
    CalmFrame(db, f.db);
    if f.Done? {
      if IsParked(f.db.parked, o) {
        FallenUnseen(f.db, db, o, env);
        CheckLeavesQuiet(f.db, o, env, depth, None);
      } else {
        CheckLeavesOthers(f.db, o, env, depth);
      }
      TryPromoteKeeps(f.db, env, depth, None);
      CalmFrame(f.db, TryPromote(f.db, env, depth).db);
    }
  }

  lemma OpenRow(db: Db, o: OrderId)
    requires Inv(db) && o in db.orders && db.orders[o].status in {Created, Queued, NoDrivers}
    ensures Holder(db.orders[o]).None? && !Closed(db.orders[o].status)
  {
  }

  lemma FallenUnseen(r: Db, db: Db, o: OrderId, env: Env)
    requires o in db.orders && Quiet(r, o) && Falls(db, o, env, r.orders[o])
    ensures Unseen(r.orders[o])
  {
  }

  // Declining the live card closes it for this driver for good and sends the order to
  // Gornozavodsk; no other order changes. A card that is not live does nothing.
  lemma DeclineCardDoes(db: Db, o: OrderId, d: DriverId, env: Env, depth: nat)
    requires Inv(db) && o in db.orders && depth >= 2 && Attempt(db, DeclinesCard(o, d), env, depth).Done?
    ensures var r := Step(db, DeclinesCard(o, d), env, depth); var row := db.orders[o];
      if row.slot.driver != Some(d) then r == db
      else
        var closed := row.(slot := NO_ROUTE_OFFER, notes := row.notes.(autoExcluded := row.notes.autoExcluded + {d}));
        && o in r.orders && Falls(db.(orders := db.orders[o := closed]), o, env, r.orders[o])
        && r.drivers == db.drivers
        && (forall a :: a in db.orders && a != o ==> a in r.orders && r.orders[a] == db.orders[a])
  {
    hide InvDuring, Falls, Step, Attempt, Fallback, Lawful, RowOk, GoodTrip, DeclineRoute;
    RefusalIsStep(db, DeclinesCard(o, d), env, depth);
    DeclineCardIs(db, o, d, env, depth);
    if db.orders[o].slot.driver == Some(d) {
      SlotUnassigned(db, o);
      CardTrip(db, o, d);
      CardVillage(db, o, d);
      ExcludedKeeps(db, o, d);
      var free := Put(db, o, Excluded(db.orders[o], d));
      SameStart(db.orders[o], free.orders[o]);
      AfterFallback(free, o, env, depth);
    }
  }

  lemma DeclineCardIs(db: Db, o: OrderId, d: DriverId, env: Env, depth: nat)
    requires Inv(db) && o in db.orders
    ensures DeclineRoute(db, o, d, env, depth) ==
              if db.orders[o].slot.driver != Some(d) then Done(db, false)
              else Fallback(Put(db, o, Excluded(db.orders[o], d)), o, false, env, depth)
  {
    hide InvDuring, Fallback, RowOk, GoodTrip, RouteCity;
    if db.orders[o].slot.driver == Some(d) {
      SlotUnassigned(db, o);
      CardTrip(db, o, d);
      CardVillage(db, o, d);
    }
  }

  lemma CardVillage(db: Db, o: OrderId, d: DriverId)
    requires Inv(db) && o in db.orders && db.orders[o].slot.driver == Some(d)
    ensures exists v :: StartsIn(db.orders[o], v)
    ensures db.orders[o].slot.trip.Some? && db.orders[o].slot.trip.value in db.orders
    ensures var trip := db.orders[db.orders[o].slot.trip.value];
      && RouteCity(db.orders[o]).Some? && trip.request.route.destination == RouteCity(db.orders[o])
      && !trip.request.route.returnIntent
  {
    CardTrip(db, o, d);
    StartsIs(db.orders[o]);
    VillageSome(db.orders[o]);
  }

  lemma SameStart(a: Order, b: Order)
    requires b.request == a.request
    ensures forall v :: StartsIn(a, v) <==> StartsIn(b, v)
  {
  }

  // An expired card does the same, and its trip is offered nothing more.
  lemma CardExpiryDoes(db: Db, o: OrderId, d: DriverId, env: Env, depth: nat)
    requires Inv(db) && o in db.orders && depth >= 2 && Attempt(db, CardExpires(o), env, depth).Done?
    requires db.orders[o].slot.driver == Some(d)
    ensures db.orders[o].slot.trip.Some? && db.orders[o].slot.trip.value in db.orders
    ensures var r := Step(db, CardExpires(o), env, depth); var row := db.orders[o];
      var trip := row.slot.trip.value; var ride := db.orders[trip];
      var closed := row.(slot := NO_ROUTE_OFFER, notes := row.notes.(autoExcluded := row.notes.autoExcluded + {d}));
      var quiet := ride.(notes := ride.notes.(autoOffersDisabled := true));
      && o in r.orders && trip in r.orders && trip != o && r.orders[trip] == quiet && r.drivers == db.drivers
      && Falls(db.(orders := db.orders[trip := quiet][o := closed]), o, env, r.orders[o])
  {
    hide InvDuring, Falls, Step, Attempt, Fallback, Lawful, RowOk;
    hide GoodTrip, RouteTimeout, Calm, Suppressed, Excluded, ThenPromote;
    TimingStep(db, o, env, depth);
    SlotUnassigned(db, o);
    CardTrip(db, o, d);
    CardVillage(db, o, d);
    var trip := db.orders[o].slot.trip.value;
    ExpiryIs(db, o, d, env, depth);
    ExpiryKeeps(db, o, d, trip);
    var free := Put(Suppressed(db, trip, d), o, Excluded(db.orders[o], d));
    SuppressedIs(db, trip, d);
    ExcludedIs(db.orders[o], d);
    SameStart(db.orders[o], free.orders[o]);
    AfterFallback(free, o, env, depth);
    var f := Fallback(free, o, false, env, depth);
    var t := ThenPromote(f, env, depth);
    TripUnmoved(free, f, trip, d, o, env, depth);
  }

  lemma TimingStep(db: Db, o: OrderId, env: Env, depth: nat)
    ensures Attempt(db, CardExpires(o), env, depth) == RouteTimeout(db, o, env, depth)
    ensures var r := RouteTimeout(db, o, env, depth);
      Step(db, CardExpires(o), env, depth) == if r.Done? then r.db else db
  {
    hide Requesting, Ending, Claiming, Refusing, OnTheRide, OnTheLine, RouteTimeout;
    TimingIs(db, CardExpires(o), env, depth);
  }

  lemma ExpiryIs(db: Db, o: OrderId, d: DriverId, env: Env, depth: nat)
    requires o in db.orders && Unassigned(db.orders[o]) && db.orders[o].slot.driver == Some(d)
    requires db.orders[o].slot.trip.Some?
    ensures var quiet := Suppressed(db, db.orders[o].slot.trip.value, d);
      && o in quiet.orders && quiet.orders[o] == db.orders[o]
      && RouteTimeout(db, o, env, depth)
           == ThenPromote(Fallback(Put(quiet, o, Excluded(db.orders[o], d)), o, false, env, depth), env, depth)
  {
    hide Fallback, ThenPromote, Excluded;
    SuppressCommutes(db, o, db.orders[o].slot.trip.value, d);
  }

  lemma SuppressedIs(db: Db, trip: OrderId, d: DriverId)
    requires trip in db.orders && db.orders[trip].driver == Some(d) && Riding(db.orders[trip].status)
    ensures var row := db.orders[trip];
      Suppressed(db, trip, d)
        == db.(orders := db.orders[trip := row.(notes := row.notes.(autoOffersDisabled := true))])
  {
  }

  lemma ExcludedIs(row: Order, d: DriverId)
    ensures Excluded(row, d)
         == row.(slot := NO_ROUTE_OFFER, notes := row.notes.(autoExcluded := row.notes.autoExcluded + {d}))
  {
  }

  lemma ExpiryKeeps(db: Db, o: OrderId, d: DriverId, trip: OrderId)
    requires Inv(db) && o in db.orders && db.orders[o].slot.driver == Some(d) && db.orders[o].slot.trip == Some(trip)
    ensures Inv(Put(Suppressed(db, trip, d), o, Excluded(db.orders[o], d)))
  {
    hide InvDuring, Lawful, Suppressed, Excluded;
    SlotUnassigned(db, o);
    OnlySlot(db, o, d);
    ExcludedKeeps(db, o, d);
    SuppressKeeps(Put(db, o, Excluded(db.orders[o], d)), trip, d);
    SuppressCommutes(db, o, trip, d);
  }

  // A ride keeps its row through the fallback of another order and the check.
  lemma TripUnmoved(free: Db, f: Outcome, trip: OrderId, d: DriverId, o: OrderId, env: Env, depth: nat)
    requires Inv(free) && trip in free.orders && trip != o && Owns(free.orders[trip], d, Ride)
    requires o in free.orders && f == Fallback(free, o, false, env, depth)
    requires Holder(free.orders[o]).None? && !Closed(free.orders[o].status)
    ensures var t := ThenPromote(f, env, depth);
      t.Done? ==> trip in t.db.orders && t.db.orders[trip] == free.orders[trip]
  {
    hide InvDuring, Fallback, Lawful, Calm, TryPromote;
    LawfulRefl(free);
    FallSound(free, free, o, env, depth);
    CalmRow(free, f.db, trip);
    if f.Done? {
      TryPromoteKeeps(f.db, env, depth, None);
      CalmRow(f.db, TryPromote(f.db, env, depth).db, trip);
    }
  }

  // ---------------------------------------------------------------- reservations

  // The row of a reservation nobody keeps.
  function Freed(row: Order, env: Env): (r: Order)
    ensures r.driver.None? && r.reserved.None? && r.request == row.request
  {
    row.(status := Queued, driver := None, reserved := None, etaChosen := false,
         offerCard := row.offerCard && !env.cardsClose)
  }

  // The order is nobody's again, at the end of the passenger queue.
  function GaveBack(db: Db, o: OrderId, env: Env): (r: Db)
    requires o in db.orders
    ensures o in r.orders && IsParked(r.parked, o)
  {
    var r := db.(orders := db.orders[o := Freed(db.orders[o], env)], parked := db.parked + [Parked(o, ParkWaiting)]);
    assert r.parked[|db.parked|].order == o;
    r
  }

  lemma ReparkIs(db: Db, o: OrderId, env: Env)
    requires Inv(db) && o in db.orders && db.orders[o].status == ParallelAssigned
    ensures var closed := Put(db, o, CardClosed(db.orders[o], env)); Repark(closed, o) == GaveBack(db, o, env)
  {
    hide InvDuring, IsParked, SetPark;
    NotParkedUnlessQueued(db, o);
    var closed := Put(db, o, CardClosed(db.orders[o], env));
    var put := Put(closed, o, Unreserved(closed.orders[o]));
    assert put.orders == db.orders[o := Freed(db.orders[o], env)];
    assert Enqueue(put, o).orders == put.orders;
    var q := db.parked + [Parked(o, ParkWaiting)];
    AppendedStays(db.parked, o);
  }

  lemma AppendedStays(parked: seq<Parked>, o: OrderId)
    requires !IsParked(parked, o)
    ensures var q := parked + [Parked(o, ParkWaiting)]; SetPark(q, o, ParkWaiting) == q
  {
  }

  // The driver's choice of a time is noted, and nothing else.
  lemma NamesTimeDoes(db: Db, o: OrderId, d: DriverId, env: Env, depth: nat)
    requires Inv(db) && o in db.orders
    ensures var r := Step(db, NamesTime(o, d), env, depth); var row := db.orders[o];
      r == if !Owns(row, d, Reservation) then db
           else db.(orders := db.orders[o := row.(etaChosen := true, offerCard := row.offerCard && !env.cardsClose)])
  {
    hide InvDuring, Requesting, Ending, Claiming, Refusing, OnTheLine, Timing;
    ReservesIs(db, o, d);
  }

  lemma ReservesIs(db: Db, o: OrderId, d: DriverId)
    requires Inv(db) && o in db.orders
    ensures Reserves(db.orders[o], d) <==> Owns(db.orders[o], d, Reservation)
    ensures db.orders[o].status == ParallelAssigned <==> db.orders[o].reserved.Some?
  {
    assert RowOk(db.orders[o]);
  }

  // A reservation without a time is given back, one with a time is kept.
  lemma TimeUnnamedDoes(db: Db, o: OrderId, env: Env, depth: nat)
    requires Inv(db) && o in db.orders
    ensures var given := TryPromote(GaveBack(db, o, env), env, depth);
      Step(db, TimeUnnamed(o), env, depth) ==
        if db.orders[o].status == ParallelAssigned && !db.orders[o].etaChosen && given.Done? then given.db else db
    ensures var r := Step(db, TimeUnnamed(o), env, depth); var row := db.orders[o];
      Attempt(db, TimeUnnamed(o), env, depth).Done? && row.status == ParallelAssigned && !row.etaChosen ==>
        o in r.orders && r.orders[o].driver.None? && r.orders[o].reserved.None? && !Closed(r.orders[o].status)
  {
    hide InvDuring, Requesting, Ending, Claiming, Refusing, OnTheRide, OnTheLine, TryPromote, GaveBack, Repark, Calm;
    TimingIs(db, TimeUnnamed(o), env, depth);
    if db.orders[o].status == ParallelAssigned && !db.orders[o].etaChosen {
      ReparkIs(db, o, env);
      GivenBackFree(db, o, env, depth);
    }
  }

  lemma GivenBackFree(db: Db, o: OrderId, env: Env, depth: nat)
    requires Inv(db) && o in db.orders && db.orders[o].status == ParallelAssigned
    ensures var r := TryPromote(GaveBack(db, o, env), env, depth).db;
      o in r.orders && r.orders[o].driver.None? && r.orders[o].reserved.None? && !Closed(r.orders[o].status)
  {
    hide InvDuring, Lawful, Calm, TryPromote, Repark;
    ReparkIs(db, o, env);
    ReleaseSound(db, o, env, depth, None);
    CalmRow(GaveBack(db, o, env), TryPromote(GaveBack(db, o, env), env, depth).db, o);
  }

  // The driver is on his way to the village the order starts in.
  ghost predicate Heading(db: Db, o: OrderId, d: DriverId)
    requires o in db.orders
  {
    exists ride, v :: ride in db.orders && Owns(db.orders[ride], d, Ride) && StartsIn(db.orders[o], v)
      && db.orders[ride].request.route.destination == Some(v)
  }

  // A reservation given up goes to Gornozavodsk if its driver was heading for its
  // village, and back to the passenger queue otherwise; nobody else's order moves in the
  // first case.
  lemma DeclineReservedDoes(db: Db, o: OrderId, d: DriverId, env: Env, depth: nat)
    requires Inv(db) && o in db.orders && depth >= 2 && Attempt(db, DeclinesReserved(o, d), env, depth).Done?
    ensures var r := Step(db, DeclinesReserved(o, d), env, depth); var row := db.orders[o];
      if !Owns(row, d, Reservation) then r == db
      else if Heading(db, o, d) then
        && o in r.orders && Falls(db.(orders := db.orders[o := Freed(row, env)]), o, env, r.orders[o])
        && r.drivers == db.drivers
        && (forall a :: a in db.orders && a != o ==> a in r.orders && r.orders[a] == db.orders[a])
      else
        && r == TryPromote(GaveBack(db, o, env), env, depth).db
        && o in r.orders && r.orders[o].driver.None? && r.orders[o].reserved.None? && !Closed(r.orders[o].status)
  {
    hide InvDuring, Falls, Step, Attempt, Fallback, TryPromote, GaveBack, Repark, Calm, Lawful, Heading, RideOf, RowOk;
    RefusalIsStep(db, DeclinesReserved(o, d), env, depth);
    ReservesIs(db, o, d);
    if Owns(db.orders[o], d, Reservation) {
      HeadingIs(db, o, d);
      ReparkIs(db, o, env);
      GivenBackFree(db, o, env, depth);
      if Heading(db, o, d) {
        var free := Put(db, o, Freed(db.orders[o], env));
        FreedKeeps(db, o, d, env);
        SameStart(db.orders[o], free.orders[o]);
        AfterFallback(free, o, env, depth);
      }
    }
  }

  lemma HeadingIs(db: Db, o: OrderId, d: DriverId)
    requires Inv(db) && o in db.orders
    ensures var ride := RideOf(db, d);
      Heading(db, o, d) <==>
        RouteCity(db.orders[o]).Some? && ride.Some?
        && db.orders[ride.value].request.route.destination == RouteCity(db.orders[o])
    ensures Heading(db, o, d) ==> exists v :: StartsIn(db.orders[o], v)
  {
    hide InvDuring, RideOf, StartsIn, HasClaim;
    RideOfIsRide(db, d, None);
    StartsIs(db.orders[o]);
    var ride := RideOf(db, d);
    forall a | a in db.orders && Owns(db.orders[a], d, Ride) ensures ride == Some(a) {
      HasRide(db, a, d);
      SlotsOnRide(db, ride.value, d);
    }
  }

  lemma FreedKeeps(db: Db, o: OrderId, d: DriverId, env: Env)
    requires Inv(db) && o in db.orders && Owns(db.orders[o], d, Reservation)
    ensures var closed := Put(db, o, CardClosed(db.orders[o], env)); var free := Put(db, o, Freed(db.orders[o], env));
      Put(closed, o, Unreserved(closed.orders[o])) == free && Inv(free)
  {
    hide InvDuring, RowOk, ParkedOk, OrdersInv, Lawful;
    CardKeeps(db, o, env, None);
    var closed := Put(db, o, CardClosed(db.orders[o], env));
    RowParts(closed, o, None);
    UnreservedRow(closed.orders[o], d);
    var row := Unreserved(closed.orders[o]);
    ClosedElsewhere(closed, o, row);
    FreeRow(closed, o, row, closed.parked, None);
    assert Put(closed, o, row) == Put(closed, o, row).(parked := closed.parked);
    assert db.orders[o := CardClosed(db.orders[o], env)][o := row] == db.orders[o := row];
  }
}
