// Orders for busy drivers: the one-minute automatic offer to a driver on a
// matching trip, and the reservation of a second order behind the first.
module RouteSteps {
  import opened Options
  import opened DispatchState
  import opened OrderTable
  import opened DriverLine
  import opened Cascade
  import opened CascadeInv
  import opened Frames
  import opened PassengerQueue
  import opened Transactions
  import opened Trips
  import opened Handoff
  import opened OfferSteps
  import opened ClaimSteps

  // A driver bound for a village may reserve only orders from that village, and
  // none at all if his trip includes the way back.
  predicate OnTheWay(trip: Order, row: Order)
  {
    trip.request.route.destination.None?
    || (!trip.request.route.returnIntent && RouteCity(row) == trip.request.route.destination)
  }

  // The card in the driver's hands is still the live one.
  predicate CardLive(db: Db, o: OrderId, d: DriverId, trip: OrderId)
    requires o in db.orders && trip in db.orders
  {
    db.orders[o].slot.driver == Some(d) && db.orders[o].slot.trip == Some(trip)
    && !db.orders[trip].notes.autoOffersDisabled
  }

  predicate Unassigned(row: Order)
  {
    Candidate(row.status) && row.driver.None? && row.reserved.None?
  }

  function Reserved(row: Order, o: OrderId, d: DriverId, env: Env): Order
  {
    row.(status := ParallelAssigned, driver := Some(d), reserved := Some(d), slot := NO_ROUTE_OFFER,
         offerCard := o in env.cards)
  }

  // Reserve an order behind the active ride; `card` says that the driver answers
  // an automatic offer instead of choosing from the list.
  predicate MayReserve(db: Db, o: OrderId, d: DriverId, card: bool)
  {
    && d in db.drivers && o in db.orders
    && RideOf(db, d).Some? && Riding(db.orders[RideOf(db, d).value].status)
    && ReservationOf(db, d).None?
    && Unassigned(db.orders[o])
    && (card ==> CardLive(db, o, d, RideOf(db, d).value))
  }

  function Reserve(db: Db, o: OrderId, d: DriverId, card: bool, env: Env): Outcome
  {
    if !MayReserve(db, o, d, card) then Done(db, false)
    else if FreeDriverHasPriority(db, o) then Done(AfterPriority(db, o), false)
    else
      var probed := AfterPriority(db, o);
      if !OnTheWay(db.orders[RideOf(db, d).value], db.orders[o]) then Done(probed, false)
      else Done(TakeAside(probed, o, d, env), false)
  }

  function TakeAside(db: Db, o: OrderId, d: DriverId, env: Env): Db
    requires o in db.orders && d in db.drivers
  {
    Put(MarkAssigned(db, d), o, Reserved(db.orders[o], o, d, env)).(parked := Unpark(db.parked, o))
  }

  // The driver names the time at which he will be there.
  function ChooseEta(db: Db, o: OrderId, d: DriverId, env: Env): Db
  {
    if o !in db.orders || !Reserves(db.orders[o], d) then db
    else
      var row := db.orders[o];
      Put(db, o, row.(etaChosen := true, offerCard := row.offerCard && !env.cardsClose))
  }

  function CardClosed(row: Order, env: Env): Order { row.(offerCard := row.offerCard && !env.cardsClose) }

  // Two minutes without a time give the order back.
  function EtaTimeout(db: Db, o: OrderId, env: Env, depth: nat): Outcome
  {
    if o !in db.orders || db.orders[o].status != ParallelAssigned || db.orders[o].etaChosen then Done(db, false)
    else ReleaseReservation(Put(db, o, CardClosed(db.orders[o], env)), o, env, depth)
  }

  // A village order on the driver's way falls back to Gornozavodsk; any other is
  // offered afresh to whoever is free.
  function DeclineReserved(db: Db, o: OrderId, d: DriverId, env: Env, depth: nat): Outcome
  {
    if o !in db.orders || !Reserves(db.orders[o], d) then Done(db, false)
    else
      var closed := Put(db, o, CardClosed(db.orders[o], env));
      var city := RouteCity(db.orders[o]);
      var ride := RideOf(db, d);
      if city.Some? && ride.Some? && db.orders[ride.value].request.route.destination == city
      then Fallback(Put(closed, o, Unreserved(closed.orders[o])), o, false, env, depth)
      else ReleaseReservation(closed, o, env, depth)
  }

  // The card is closed and will not come back to this driver.
  function Excluded(row: Order, d: DriverId): Order
  {
    ClearRoute(row).(notes := row.notes.(autoExcluded := row.notes.autoExcluded + {d}))
  }

  function DeclineRoute(db: Db, o: OrderId, d: DriverId, env: Env, depth: nat): Outcome
  {
    if o !in db.orders || !Unassigned(db.orders[o]) || db.orders[o].slot.driver != Some(d)
       || db.orders[o].slot.trip.None? || db.orders[o].slot.trip.value !in db.orders then Done(db, false)
    else
      var row := db.orders[o];
      var trip := db.orders[row.slot.trip.value];
      if trip.driver != Some(d) || !Riding(trip.status) then Done(db, false)
      else if RouteCity(row).None? || trip.request.route.destination != RouteCity(row)
              || trip.request.route.returnIntent then Done(db, false)
      else Fallback(Put(db, o, Excluded(row, d)), o, false, env, depth)
  }

  // The trip whose driver let the card expire is offered nothing more.
  function Suppressed(db: Db, trip: OrderId, d: DriverId): (r: Db)
    ensures r.orders.Keys == db.orders.Keys
  {
    if trip in db.orders && db.orders[trip].driver == Some(d) && Riding(db.orders[trip].status)
    then Put(db, trip, db.orders[trip].(notes := db.orders[trip].notes.(autoOffersDisabled := true)))
    else db
  }

  function RouteTimeout(db: Db, o: OrderId, env: Env, depth: nat): Outcome
  {
    if o !in db.orders || db.orders[o].slot.driver.None? || db.orders[o].slot.trip.None? then Done(db, false)
    else
      var row := db.orders[o];
      var d := row.slot.driver.value;
      if !Unassigned(row) then Done(Put(db, o, ClearRoute(row)), false)
      else
        var quiet := Suppressed(db, row.slot.trip.value, d);
        ThenPromote(Fallback(Put(quiet, o, Excluded(quiet.orders[o], d)), o, false, env, depth), env, depth)
  }

  // ---------------------------------------------------------------- proofs

  // A driver on a ride with no reservation may take one more order, behind it.
  lemma ReserveSound(db: Db, o: OrderId, d: DriverId, card: bool, env: Env)
    requires Inv(db)
    ensures ClaimSound(db, Reserve(db, o, d, card, env), o, d)
    ensures var r := Reserve(db, o, d, card, env).db;
      r.orders == db.orders ||
      (MayReserve(db, o, d, card) && o in r.orders && Owns(r.orders[o], d, Reservation))
  {
    hide InvDuring, Calm, Lawful, RideOf, ReservationOf, Repair, TakeAside, HasClaim;
    LawfulRefl(db);
    RepairCalm(db, None);
    RepairFrame(db);
    LawfulSame(db, db, Repair(db));
    if MayReserve(db, o, d, card) {
      var probed := AfterPriority(db, o);
      assert probed.orders == db.orders && probed.drivers == db.drivers;
      if !FreeDriverHasPriority(db, o) && OnTheWay(db.orders[RideOf(db, d).value], db.orders[o]) {
        RideOfIsRide(db, d, None);
        ReservationOfIsReservation(db, d, None);
        TakeAsideKeeps(probed, o, d, RideOf(db, d).value, env);
        assert Claims(db, TakeAside(probed, o, d, env), o, d) by {
        }
      }
    }
  }

  lemma TakeAsideKeeps(db: Db, o: OrderId, d: DriverId, ride: OrderId, env: Env)
    requires Inv(db) && o in db.orders && d in db.drivers && Unassigned(db.orders[o])
    requires ride in db.orders && Owns(db.orders[ride], d, Ride) && !HasClaim(db.orders, d, Reservation)
    ensures var r := TakeAside(db, o, d, env);
      Inv(r) && Claims(db, r, o, d) && o in r.orders && Owns(r.orders[o], d, Reservation)
  {
    hide InvDuring, RowOk, OrdersInv, Lawful, RowLaw, ParkedOk, HasClaim, FitsHolder;
    var row := Reserved(db.orders[o], o, d, env);
    var mid := MarkAssigned(db, d);
    var r := TakeAside(db, o, d, env);
    MarkIsLocal(db, d);
    SlotsOnRide(db, ride, d);
    DriverMoves(db, mid, d, None);
    SameOrders(db, mid, d);
    RowParts(mid, o, None);
    ReservedRow(db.orders[o], o, d, env);
    ReserveFits(db, o, d, ride, row);
    UnparkLeavesOk(mid, o, row);
    WriteKeeps(mid, o, row, Unpark(mid.parked, o), None);
    assert r == Put(mid, o, row).(parked := Unpark(mid.parked, o));
    LawfulRefl(db);
    ClaimPut(db, db, o, row, d, r);
  }

  lemma ReservedRow(row: Order, o: OrderId, d: DriverId, env: Env)
    requires RowOk(row) && Unassigned(row)
    ensures var r := Reserved(row, o, d, env);
      RowOk(r) && Owns(r, d, Reservation) && r.slot == NO_ROUTE_OFFER && RowClaim(row, r, d)
    ensures Holder(row).None?
  {
  }

  lemma ReserveFits(db: Db, o: OrderId, d: DriverId, ride: OrderId, row: Order)
    requires Inv(db) && o in db.orders && Holder(db.orders[o]).None? && Owns(row, d, Reservation)
    requires ride in db.orders && Owns(db.orders[ride], d, Ride) && !HasClaim(db.orders, d, Reservation)
    ensures FitsHolder(db.orders, o, row, None)
  {
    hide RowOk, RosterOk, ParkedOk, Seated, DistinctPositions;
    forall a | a in db.orders && a != o ensures Compatible(row, db.orders[a]) {
      assert !Owns(db.orders[a], d, Reservation);
      if a != ride { assert Compatible(db.orders[ride], db.orders[a]); }
    }
  }

  lemma ChooseEtaKeeps(db: Db, o: OrderId, d: DriverId, env: Env)
    requires Inv(db)
    ensures Inv(ChooseEta(db, o, d, env)) && Lawful(db, ChooseEta(db, o, d, env))
  {
    hide InvDuring, Lawful;
    LawfulRefl(db);
    if o in db.orders && Reserves(db.orders[o], d) {
      var row := db.orders[o];
      var after := row.(etaChosen := true, offerCard := row.offerCard && !env.cardsClose);
      NoteRow(db, o, after, None);
      LawfulPut(db, db, o, after, Put(db, o, after));
    }
  }

  lemma CardKeeps(db: Db, o: OrderId, env: Env, e: Option<DriverId>)
    requires InvDuring(db, e) && o in db.orders
    ensures var closed := Put(db, o, CardClosed(db.orders[o], env));
      InvDuring(closed, e) && Lawful(db, closed) && Holder(closed.orders[o]) == Holder(db.orders[o])
  {
    hide InvDuring, Lawful;
    LawfulRefl(db);
    NoteRow(db, o, CardClosed(db.orders[o], env), e);
    LawfulPut(db, db, o, CardClosed(db.orders[o], env), Put(db, o, CardClosed(db.orders[o], env)));
  }

  lemma ReservesOwns(db: Db, o: OrderId, e: Option<DriverId>)
    requires InvDuring(db, e) && o in db.orders && db.orders[o].status == ParallelAssigned
    ensures db.orders[o].reserved.Some? && Owns(db.orders[o], db.orders[o].reserved.value, Reservation)
  {
    assert RowOk(db.orders[o]);
  }

  lemma LawfulChain(db: Db, mid: Db, r: Db, o: OrderId)
    requires Lawful(db, mid) && Lawful(mid, r) && o in db.orders && o in mid.orders
    requires mid.orders[o].driver == db.orders[o].driver
    requires forall a :: a in db.orders && a != o ==> a in mid.orders && a in r.orders && mid.orders[a] == db.orders[a]
    ensures Lawful(db, r)
  {
    forall a | a in db.orders ensures a in r.orders && RowLaw(db.orders[a], r.orders[a]) {
      assert RowLaw(db.orders[a], mid.orders[a]) && RowLaw(mid.orders[a], r.orders[a]);
    }
  }

  // A reservation given back: parked again, with nobody's name on it.
  lemma ReleaseSound(db: Db, o: OrderId, env: Env, depth: nat, e: Option<DriverId>)
    requires InvDuring(db, e) && o in db.orders && db.orders[o].status == ParallelAssigned
    ensures var closed := Put(db, o, CardClosed(db.orders[o], env));
      var r := ReleaseReservation(closed, o, env, depth).db;
      InvDuring(r, e) && Lawful(db, r) && Calm(Repark(closed, o), r)
  {
    hide InvDuring, Lawful, Calm, RowLaw, Holder;
    var closed := Put(db, o, CardClosed(db.orders[o], env));
    CardKeeps(db, o, env, e);
    ReservesOwns(db, o, e);
    var d := db.orders[o].reserved.value;
    var back := Repark(closed, o);
    ReparkKeeps(closed, o, d, e);
    LawfulChain(db, closed, back, o);
    TryPromoteKeeps(back, env, depth, e);
    LawfulCalm(db, back, TryPromote(back, env, depth).db);
  }

  lemma EtaTimeoutSound(db: Db, o: OrderId, env: Env, depth: nat)
    requires Inv(db)
    ensures Sound(db, EtaTimeout(db, o, env, depth))
  {
    hide InvDuring, Lawful;
    LawfulRefl(db);
    if o in db.orders && db.orders[o].status == ParallelAssigned {
      ReleaseSound(db, o, env, depth, None);
    }
  }

  lemma DeclineReservedSound(db: Db, o: OrderId, d: DriverId, env: Env, depth: nat)
    requires Inv(db)
    ensures Sound(db, DeclineReserved(db, o, d, env, depth))
  {
    hide InvDuring, Lawful, Fallback, ReleaseReservation, RideOf;
    LawfulRefl(db);
    if o in db.orders && Reserves(db.orders[o], d) {
      var closed := Put(db, o, CardClosed(db.orders[o], env));
      ReleaseSound(db, o, env, depth, None);
      var city := RouteCity(db.orders[o]);
      var ride := RideOf(db, d);
      if city.Some? && ride.Some? && db.orders[ride.value].request.route.destination == city {
        CardKeeps(db, o, env, None);
        UnreserveThenFall(db, closed, o, d, env, depth);
      }
    }
  }

  lemma UnreserveThenFall(db: Db, closed: Db, o: OrderId, d: DriverId, env: Env, depth: nat)
    requires Inv(db) && o in db.orders && Reserves(db.orders[o], d)
    requires closed == Put(db, o, CardClosed(db.orders[o], env)) && Inv(closed)
    ensures Sound(db, Fallback(Put(closed, o, Unreserved(closed.orders[o])), o, false, env, depth))
  {
    hide InvDuring, Lawful, Fallback, RowOk, ParkedOk, RowLaw, Calm, OrdersInv;
    RowParts(db, o, None);
    RowParts(closed, o, None);
    ReservesOwns(db, o, None);
    var row := Unreserved(closed.orders[o]);
    var free := Put(closed, o, row);
    UnreservedRow(closed.orders[o], d);
    ClosedElsewhere(closed, o, row);
    FreeRow(closed, o, row, closed.parked, None);
    assert free == Put(closed, o, row).(parked := closed.parked);
    assert free == Put(db, o, row) by {
      assert db.orders[o := CardClosed(db.orders[o], env)][o := row] == db.orders[o := row];
    }
    LawfulRefl(db);
    LawfulPut(db, db, o, row, free);
    FallSound(db, free, o, env, depth);
  }

  lemma FallSound(db: Db, free: Db, o: OrderId, env: Env, depth: nat)
    requires Inv(free) && Lawful(db, free) && o in free.orders
    requires Holder(free.orders[o]).None? && !Closed(free.orders[o].status)
    ensures var r := Fallback(free, o, false, env, depth);
      Inv(r.db) && Calm(free, r.db) && Sound(db, r) && Sound(db, ThenPromote(r, env, depth))
  {
    hide InvDuring, Lawful, Fallback, Calm, Moves;
    var r := Fallback(free, o, false, env, depth);
    FallbackKeeps(free, o, false, env, depth, None);
    KeptCalm(free, r.db, o, None);
    LawfulCalm(db, free, r.db);
    PromoteSound(db, r.db, env, depth);
  }

  // Closing an automatic offer on an order that nobody holds.
  lemma ExcludedKeeps(db: Db, o: OrderId, d: DriverId)
    requires Inv(db) && o in db.orders && Unassigned(db.orders[o])
    ensures var free := Put(db, o, Excluded(db.orders[o], d));
      && Inv(free) && Lawful(db, free) && Holder(free.orders[o]).None? && !Closed(free.orders[o].status)
  {
    hide InvDuring, Lawful, OrdersInv, ParkedOk;
    RowParts(db, o, None);
    var row := Excluded(db.orders[o], d);
    ParkedSame(db, o, row);
    FreeRow(db, o, row, db.parked, None);
    assert Put(db, o, row) == Put(db, o, row).(parked := db.parked);
    LawfulRefl(db);
    LawfulPut(db, db, o, row, Put(db, o, row));
  }

  lemma DeclineRouteSound(db: Db, o: OrderId, d: DriverId, env: Env, depth: nat)
    requires Inv(db)
    ensures Sound(db, DeclineRoute(db, o, d, env, depth))
  {
    hide Inv, InvDuring, Lawful, Fallback, RowOk;
    LawfulRefl(db);
    if o in db.orders && Unassigned(db.orders[o]) {
      ExcludedKeeps(db, o, d);
      FallSound(db, Put(db, o, Excluded(db.orders[o], d)), o, env, depth);
    }
  }

  // A ride stops being offered more orders once no offer leans on it.
  lemma SuppressKeeps(db: Db, trip: OrderId, d: DriverId)
    requires Inv(db) && NoSlotOf(db.orders, d)
    ensures Inv(Suppressed(db, trip, d)) && Lawful(db, Suppressed(db, trip, d))
  {
    hide InvDuring, Lawful, FitsHolder, FitsRoute, SeatReady, ParkedOk, RowOk;
    LawfulRefl(db);
    if trip in db.orders && db.orders[trip].driver == Some(d) && Riding(db.orders[trip].status) {
      var row := db.orders[trip].(notes := db.orders[trip].notes.(autoOffersDisabled := true));
      RowParts(db, trip, None);
      OwnFits(db, trip, None);
      SuppressFits(db, trip, row);
      ParkedSame(db, trip, row);
      WriteKeeps(db, trip, row, db.parked, None);
      assert Put(db, trip, row) == Put(db, trip, row).(parked := db.parked);
      LawfulPut(db, db, trip, row, Put(db, trip, row));
    }
  }

  lemma SuppressFits(db: Db, trip: OrderId, row: Order)
    requires trip in db.orders && Riding(db.orders[trip].status) && RowOk(db.orders[trip])
    requires row == db.orders[trip].(notes := db.orders[trip].notes.(autoOffersDisabled := true))
    requires FitsHolder(db.orders, trip, db.orders[trip], None) && SeatReady(db, db.orders[trip])
    ensures RowOk(row) && FitsHolder(db.orders, trip, row, None) && FitsRoute(db.orders, trip, row, None)
    ensures SeatReady(db, row) && Holder(row) == Holder(db.orders[trip])
  {
    forall a | a in db.orders && a != trip && Holder(row).Some? ensures Compatible(row, db.orders[a]) {
      assert Compatible(db.orders[trip], db.orders[a]);
    }
  }

  lemma RouteTimeoutSound(db: Db, o: OrderId, env: Env, depth: nat)
    requires Inv(db)
    ensures Sound(db, RouteTimeout(db, o, env, depth))
  {
    hide Inv, InvDuring, Lawful, Fallback, RowOk, OrdersInv, ParkedOk, Suppressed, TryPromote, RowLaw;
    LawfulRefl(db);
    if o in db.orders && db.orders[o].slot.driver.Some? && db.orders[o].slot.trip.Some? {
      var trip := db.orders[o].slot.trip.value;
      var d := db.orders[o].slot.driver.value;
      SlotUnassigned(db, o);
      var closed := Put(db, o, Excluded(db.orders[o], d));
      ExcludedKeeps(db, o, d);
      OnlySlot(db, o, d);
      SuppressKeeps(closed, trip, d);
      var quiet := Suppressed(db, trip, d);
      var free := Put(quiet, o, Excluded(quiet.orders[o], d));
      SuppressCommutes(db, o, trip, d);
      LawfulChain(db, closed, free, o) by { assert o in closed.orders; }
      FallSound(db, free, o, env, depth);
    }
  }

  // The order's slot was the driver's only one.
  lemma OnlySlot(db: Db, o: OrderId, d: DriverId)
    requires Inv(db) && o in db.orders && db.orders[o].slot.driver == Some(d)
    ensures NoSlotOf(Put(db, o, Excluded(db.orders[o], d)).orders, d)
  {
    hide RowOk, Exclusive, Backed, RosterOk, Seated, ParkedOk;
    assert OneRouteOfferEach(db.orders);
  }

  lemma SuppressCommutes(db: Db, o: OrderId, trip: OrderId, d: DriverId)
    requires o in db.orders && Unassigned(db.orders[o])
    ensures var quiet := Suppressed(db, trip, d);
      && o in quiet.orders && quiet.orders[o] == db.orders[o]
      && Put(quiet, o, Excluded(db.orders[o], d)) == Suppressed(Put(db, o, Excluded(db.orders[o], d)), trip, d)
  {
    var quiet := Suppressed(db, trip, d);
    var row := Excluded(db.orders[o], d);
    if trip in db.orders && db.orders[trip].driver == Some(d) && Riding(db.orders[trip].status) {
      var t := db.orders[trip].(notes := db.orders[trip].notes.(autoOffersDisabled := true));
      assert trip != o;
      assert db.orders[trip := t][o := row] == db.orders[o := row][trip := t];
    }
  }

  lemma SlotUnassigned(db: Db, o: OrderId)
    requires Inv(db) && o in db.orders && db.orders[o].slot.driver.Some?
    ensures Unassigned(db.orders[o]) && db.orders[o].slot.trip.Some?
  {
    assert RowOk(db.orders[o]);
  }

  // ---------------------------------------------------------------- what a card leaves behind

  // A declined card is closed for good: the driver is excluded, the order is in
  // its fallback stage, and the trip may still be offered other orders.
  lemma DeclineConsumes(db: Db, o: OrderId, d: DriverId, env: Env, depth: nat)
    requires Inv(db) && o in db.orders && db.orders[o].slot.driver == Some(d)
    ensures var r := DeclineRoute(db, o, d, env, depth).db; var trip := db.orders[o].slot.trip.value;
      && o in r.orders && r.orders[o].slot == NO_ROUTE_OFFER && r.orders[o].fallback
      && d in r.orders[o].notes.autoExcluded
      && trip in db.orders && trip in r.orders && r.orders[trip] == db.orders[trip]
  {
    hide InvDuring, Fallback, RowOk, Lawful, Calm;
    SlotUnassigned(db, o);
    CardTrip(db, o, d);
    var free := Put(db, o, Excluded(db.orders[o], d));
    ExcludedKeeps(db, o, d);
    LawfulRefl(free);
    FallSound(free, free, o, env, depth);
    FallbackFlags(free, o, env, depth, None);
    var r := Fallback(free, o, false, env, depth).db;
    CalmRow(free, r, o);
    CalmRow(free, r, db.orders[o].slot.trip.value);
    ClosedSlot(r, o);
  }

  lemma ClosedSlot(db: Db, o: OrderId)
    requires Inv(db) && o in db.orders && db.orders[o].slot.driver.None?
    ensures db.orders[o].slot == NO_ROUTE_OFFER
  {
    assert RowOk(db.orders[o]);
  }

  // A live card names a ride of its driver, bound for the order's village.
  lemma CardTrip(db: Db, o: OrderId, d: DriverId)
    requires Inv(db) && o in db.orders && db.orders[o].slot.driver == Some(d)
    ensures db.orders[o].slot.trip.Some? && db.orders[o].slot.trip.value in db.orders
    ensures db.orders[o].slot.trip.value != o
    ensures var trip := db.orders[db.orders[o].slot.trip.value];
      Owns(trip, d, Ride) && Riding(trip.status) && trip.driver == Some(d) && GoodTrip(trip, db.orders[o])
  {
    assert OnTrip(db.orders, db.orders[o]);
    assert RowOk(db.orders[o]);
  }

  // An expired card is closed the same way, but its trip is offered nothing more.
  lemma ExpiryConsumes(db: Db, o: OrderId, d: DriverId, env: Env, depth: nat)
    requires Inv(db) && o in db.orders && db.orders[o].slot.driver == Some(d)
    ensures var r := RouteTimeout(db, o, env, depth); var trip := db.orders[o].slot.trip.value;
      r.Done? ==>
        && o in r.db.orders && r.db.orders[o].slot == NO_ROUTE_OFFER && r.db.orders[o].fallback
        && d in r.db.orders[o].notes.autoExcluded
        && trip in r.db.orders && r.db.orders[trip].notes.autoOffersDisabled && Owns(r.db.orders[trip], d, Ride)
  {
    hide InvDuring, Fallback, RowOk, Lawful, Calm, TryPromote, Suppressed;
    SlotUnassigned(db, o);
    CardTrip(db, o, d);
    var trip := db.orders[o].slot.trip.value;
    var closed := Put(db, o, Excluded(db.orders[o], d));
    ExcludedKeeps(db, o, d);
    OnlySlot(db, o, d);
    SuppressKeeps(closed, trip, d);
    SuppressCommutes(db, o, trip, d);
    var quiet := Suppressed(db, trip, d);
    var free := Put(quiet, o, Excluded(quiet.orders[o], d));
    SuppressedTrip(db, trip, d);
    LawfulRefl(free);
    FallSound(free, free, o, env, depth);
    FallbackFlags(free, o, env, depth, None);
    var f := Fallback(free, o, false, env, depth);
    CalmRow(free, f.db, o);
    CalmRow(free, f.db, trip);
    if f.Done? {
      TryPromoteKeeps(f.db, env, depth, None);
      var r := TryPromote(f.db, env, depth).db;
      CalmRow(f.db, r, o);
      CalmRow(f.db, r, trip);
      FallbackSlot(r, o);
    }
  }

  lemma SuppressedTrip(db: Db, trip: OrderId, d: DriverId)
    requires trip in db.orders && db.orders[trip].driver == Some(d) && Riding(db.orders[trip].status)
    ensures var s := Suppressed(db, trip, d);
      trip in s.orders && s.orders[trip].notes.autoOffersDisabled && Owns(s.orders[trip], d, Ride)
  {
  }

  lemma FallbackSlot(db: Db, o: OrderId)
    requires Inv(db) && o in db.orders && db.orders[o].fallback
    ensures db.orders[o].slot == NO_ROUTE_OFFER
  {
    assert RowOk(db.orders[o]);
  }
}
