// The steps of passengers and of drivers on the line keep the invariant.
module PassengerSafety {
  import opened Options
  import opened DispatchState
  import opened OrderTable
  import opened DriverLine
  import opened Cascade
  import opened CascadeInv
  import opened Frames
  import opened PassengerQueue
  import opened Transactions
  import opened Trips
  import opened Handoff
  import opened OfferSteps
  import opened ClaimSteps
  import opened RouteSteps
  import opened TripSteps
  import opened TripSafety
  import opened CancelSafety
  import opened PassengerSteps

  // ---------------------------------------------------------------- new orders

  lemma AddOrderKeeps(db: Db, request: Request)
    requires Inv(db)
    ensures var added := AddOrder(db, request);
      && db.nextOrder !in db.orders
      && Inv(added) && Lawful(db, added) && Adrift(added, db.nextOrder)
      && added.orders[db.nextOrder] == Fresh(request)
      && added.drivers == db.drivers && added.queue == db.queue
  {
    hide RowOk;
    var o := db.nextOrder;
    var row := Fresh(request);
    assert o !in db.orders;
    assert RowOk(row) by { FreshOk(request); }
    UpdateRow(db.orders, o, row, None);
    var added := AddOrder(db, request);
    SeatedAfter(db, o, row, db.parked);
    assert Seated(added) by { SeatedSame(Put(db, o, row).(parked := db.parked), added); }
    NotParkedNew(db, o, row);
    LawfulRefl(db);
    LawfulPut(db, db, o, row, added);
  }

  lemma FreshOk(request: Request)
    ensures RowOk(Fresh(request)) && Holder(Fresh(request)).None?
  {
  }

  lemma NotParkedNew(db: Db, o: OrderId, row: Order)
    requires ParkedOk(db.orders, db.parked) && o !in db.orders
    ensures !IsParked(db.parked, o) && ParkedOk(db.orders[o := row], db.parked)
  {
  }

  lemma DispatchKeeps(db: Db, o: OrderId, env: Env, depth: nat)
    requires Inv(db) && Adrift(db, o) && !db.orders[o].fallback
    ensures var r := Dispatch(db, o, env, depth); Inv(r.db) && Calm(db, r.db)
  {
    hide InvDuring, Calm, Moves, Repair, OfferToNextDriver, ParkAndNotify, HasWaiting, Enqueue, StageLine;
    var mid := Repair(db);
    RepairKeeps(db, None, o);
    RepairFrame(db);
    AdriftOpen(db, o);
    KeptCalm(db, mid, o, None);
    var city := RouteCity(db.orders[o]);
    StageOf(db.orders[o]);
    if city.None? || HasWaiting(db, VillageLine(city.value), {}) {
      var line := if city.None? then None else Some(VillageLine(city.value));
      OfferKeeps(mid, o, {}, line, env, depth, None);
      KeptCalm(mid, OfferToNextDriver(mid, o, {}, line, env, depth).db, o, None);
      CalmTrans(db, mid, OfferToNextDriver(mid, o, {}, line, env, depth).db);
    } else {
      var q := Enqueue(mid, o);
      EnqueueKeeps(mid, o, None);
      KeptCalm(mid, q, o, None);
      ParkAndNotifyKeeps(q, o, env, depth, None);
      KeptCalm(q, ParkAndNotify(q, o, env, depth).db, o, None);
      CalmTrans(db, mid, q);
      CalmTrans(db, q, ParkAndNotify(q, o, env, depth).db);
    }
  }

  lemma StageOf(row: Order)
    requires !row.fallback
    ensures RouteCity(row).Some? ==> StageLine(row) == VillageLine(RouteCity(row).value)
  {
  }

  // A new order is always there afterwards, even if its dispatch failed.
  lemma CreateOrderSound(db: Db, request: Request, env: Env, depth: nat)
    requires Inv(db)
    ensures var r := CreateOrder(db, request, env, depth);
      r.Done? && Sound(db, r) && db.nextOrder !in db.orders && db.nextOrder in r.db.orders
      && r.db.orders[db.nextOrder].driver.None?
  {
    hide InvDuring, Calm, Lawful, OfferToNextDriver, Dispatch, Enqueue, Moves;
    var o := db.nextOrder;
    var added := AddOrder(db, request.(requested := None));
    AddOrderKeeps(db, request.(requested := None));
    if request.byDispatcher {
      OfferSound(db, added, o, {}, env, depth);
      CalmRow(added, OfferToNextDriver(added, o, {}, None, env, depth).db, o);
    } else {
      DispatchKeeps(added, o, env, depth);
      LawfulCalm(db, added, Dispatch(added, o, env, depth).db);
      CalmRow(added, Dispatch(added, o, env, depth).db, o);
    }
    EnqueueKeeps(added, o, None);
    AdriftOpen(added, o);
    KeptCalm(added, Enqueue(added, o), o, None);
    LawfulCalm(db, added, Enqueue(added, o));
  }

  // ---------------------------------------------------------------- personal selection

  // Holds are not part of the invariant.
  lemma HoldsAreFree(db: Db, holds: map<nat, Hold>, next: nat)
    requires Inv(db)
    ensures var r := db.(holds := holds, nextHold := next); Inv(r) && Lawful(db, r)
  {
    hide OrdersInv, DistinctPositions, ParkedOk;
    SeatedSame(db, db.(holds := holds, nextHold := next));
  }

  lemma HoldsThenOrders(db: Db, mid: Db, r: Db)
    requires Lawful(mid, r) && mid.orders == db.orders
    ensures Lawful(db, r)
  {
  }

  lemma DropHoldKeeps(db: Db, h: nat)
    requires Inv(db) && h in db.holds
    ensures Inv(DropHold(db, h)) && Lawful(db, DropHold(db, h))
    ensures DropHold(db, h).orders == db.orders && DropHold(db, h).drivers == db.drivers
  {
    hide InvDuring, Lawful, OnlyDriver, OfferedTo, SetRowStatus;
    LawfulRefl(db);
    var d := db.holds[h].driver;
    if d in db.queue && db.queue[d].status == Offered && !OfferedTo(db, d) {
      var mid := db.(queue := SetRowStatus(db.queue, d, Waiting));
      RowMoves(db, d, Waiting);
      HoldsAreFree(mid, db.holds - {h}, db.nextHold);
      HoldsThenOrders(db, mid, DropHold(db, h));
    } else {
      HoldsAreFree(db, db.holds - {h}, db.nextHold);
    }
  }

  // The row of a driver who is looking at no offer may change status.
  lemma RowMoves(db: Db, d: DriverId, s: RowStatus)
    requires Inv(db) && d in db.queue && !OfferedTo(db, d)
    ensures var r := db.(queue := SetRowStatus(db.queue, d, s)); Inv(r) && Lawful(db, r)
  {
    hide OrdersInv, ParkedOk, RowOk, RosterOk, DistinctPositions, Seated;
    var r := db.(queue := SetRowStatus(db.queue, d, s));
    RowPlaces(db, d, s);
    SeatedRepaired(db, r) by {
      forall a, x: DriverId | LiveOffer(db.orders, a, x) ensures x != d { assert OfferedTo(db, x); }
    }
    QueueInRoster(db);
    RosterStays(db, r);
    LawfulRefl(db);
  }

  lemma RowPlaces(db: Db, d: DriverId, s: RowStatus)
    requires DistinctPositions(db.queue) && d in db.queue
    ensures DistinctPositions(SetRowStatus(db.queue, d, s))
  {
  }

  lemma SelectDriverKeeps(db: Db, p: PassengerId, d: DriverId)
    requires Inv(db)
    ensures Inv(SelectDriver(db, p, d)) && Lawful(db, SelectDriver(db, p, d))
  {
    hide InvDuring, Lawful, DropHold, OfferedTo, HoldBelow, SetRowStatus;
    LawfulRefl(db);
    var prior := HoldBelow(db.holds, Some(p), None, db.nextHold);
    var base := if prior.Some? then DropHold(db, prior.value) else db;
    if prior.Some? { DropHoldKeeps(db, prior.value); }
    if Selectable(base, d) {
      OfferOfIsOffer(base, d);
      var mid := base.(queue := SetRowStatus(base.queue, d, Offered));
      RowMoves(base, d, Offered);
      HoldsAreFree(mid, base.holds[base.nextHold := Hold(p, d)], base.nextHold + 1);
      HoldsThenOrders(db, mid, SelectDriver(db, p, d));
    }
  }

  lemma ReleaseHoldSound(db: Db, h: nat, env: Env, depth: nat)
    requires Inv(db)
    ensures Sound(db, ReleaseHold(db, h, env, depth))
  {
    hide InvDuring, Lawful, DropHold, TryPromote;
    LawfulRefl(db);
    if h in db.holds {
      DropHoldKeeps(db, h);
      PromoteSound(db, DropHold(db, h), env, depth);
    }
  }

  // A personal request goes to the chosen driver, who is committed nowhere.
  lemma SubmitDirectKeeps(db: Db, h: nat, request: Request, env: Env)
    requires Inv(db)
    ensures var r := SubmitDirect(db, h, request, env);
      && Inv(r) && Lawful(db, r)
      && (r.orders == db.orders
          || (h in db.holds && r.orders.Keys == db.orders.Keys + {db.nextOrder}
              && LiveOffer(r.orders, db.nextOrder, db.holds[h].driver)
              && r.orders[db.nextOrder].request.requested == Some(db.holds[h].driver)))
  {
    hide InvDuring, Lawful, DropHold, OfferedTo, Moves, HasClaim, RideOf;
    LawfulRefl(db);
    if h in db.holds {
      var d := db.holds[h].driver;
      DropHoldKeeps(db, h);
      if !(d !in db.drivers || d !in db.queue || db.queue[d].status != Offered || !db.drivers[d].onLine
           || db.drivers[d].status != Online || RideOf(db, d).Some? || OfferOf(db, d).Some?) {
        var bare := db.(holds := db.holds - {h});
        HoldsAreFree(db, db.holds - {h}, db.nextHold);
        var added := AddOrder(bare, request.(requested := Some(d)));
        AddOrderKeeps(bare, request.(requested := Some(d)));
        OfferOfIsOffer(db, d);
        NoRideNoWork(db, d);
        FreeMeansFreeBut(db, db.nextOrder, d);
        assert FreeBut(added.orders, d, db.nextOrder) by {
          FreeButNew(db.orders, db.nextOrder, d, Fresh(request.(requested := Some(d))));
        }
        OfferFreeDriver(added, db.nextOrder, d, env, None);
        var r := PlaceOffer(added, db.nextOrder, d, env);
        AdriftOpen(added, db.nextOrder);
        KeptCalm(added, r, db.nextOrder, None);
        LawfulCalm(bare, added, r);
        HoldsThenOrders(db, bare, r);
      }
    }
  }

  lemma FreeButNew(orders: Orders, o: OrderId, d: DriverId, row: Order)
    requires FreeBut(orders, d, o)
    ensures FreeBut(orders[o := row], d, o)
  {
  }

  // ---------------------------------------------------------------- waiting passengers

  lemma ParkedIsQueued(db: Db, o: OrderId)
    requires Inv(db) && IsParked(db.parked, o)
    ensures o in db.orders && db.orders[o].status == Queued && RowOk(db.orders[o])
    ensures Holder(db.orders[o]).None? && db.orders[o].driver.None? && db.orders[o].offered.None?
    ensures db.orders[o].reserved.None?
  {
  }

  lemma CloseParkedKeeps(db: Db, o: OrderId)
    requires Inv(db) && IsParked(db.parked, o) && o in db.orders
    ensures Inv(CloseParked(db, o)) && Lawful(db, CloseParked(db, o))
  {
    hide InvDuring, Lawful;
    ParkedIsQueued(db, o);
    CancelledRow(db.orders[o]);
    var row := ClearRoute(db.orders[o]).(status := Cancelled);
    assert row == ClearRoute(db.orders[o].(status := Cancelled)).(offered := None, reserved := None);
    CloseUnridden(db, o, row);
  }

  lemma ReparkSame(db: Db, parked: seq<Parked>)
    requires Inv(db) && SameQueue(db.parked, parked)
    ensures Inv(db.(parked := parked)) && Lawful(db, db.(parked := parked))
  {
    hide OrdersInv, DistinctPositions;
    SameQueueParks(db.parked, parked);
    SeatedSame(db, db.(parked := parked));
  }

  lemma ConfirmSound(db: Db, o: OrderId, actual: bool, env: Env, depth: nat)
    requires Inv(db)
    ensures Sound(db, Confirm(db, o, actual, env, depth))
  {
    hide InvDuring, Lawful, TryPromote, CloseParked, IsParked;
    LawfulRefl(db);
    if o in db.orders && IsParked(db.parked, o) {
      ReparkSame(db, SetPark(db.parked, o, ParkWaiting));
      if !actual {
        CloseParkedKeeps(db, o);
        PromoteSound(db, CloseParked(db, o), env, depth);
      } else {
        var row := db.orders[o].(notes := db.orders[o].notes.(confirmed := true));
        var mid := Put(db, o, row);
        RideNote(db, o, row);
        var parked := SetPark(PausePrompts(db.parked, Some(o)), o, ParkWaiting);
        ReparkSame(mid, parked);
        HoldsThenParked(db, mid, mid.(parked := parked));
        PromoteSound(db, mid.(parked := parked), env, depth);
      }
    }
  }

  lemma HoldsThenParked(db: Db, mid: Db, r: Db)
    requires Lawful(db, mid) && r.orders == mid.orders
    ensures Lawful(db, r)
  {
  }

  lemma PollTimeoutSound(db: Db, o: OrderId, env: Env, depth: nat)
    requires Inv(db)
    ensures Sound(db, PollTimeout(db, o, env, depth))
  {
    hide InvDuring, Lawful, TryPromote, CloseParked;
    LawfulRefl(db);
    if o in db.orders && Parked(o, Polling) in db.parked {
      ReparkSame(db, SetPark(db.parked, o, ParkWaiting));
      if !db.orders[o].request.byDispatcher {
        CloseParkedKeeps(db, o);
        PromoteSound(db, CloseParked(db, o), env, depth);
      }
    }
  }

  lemma DispatcherUnclaimedKeeps(db: Db, o: OrderId)
    requires Inv(db)
    ensures Inv(DispatcherUnclaimed(db, o)) && Lawful(db, DispatcherUnclaimed(db, o))
  {
    hide InvDuring, Lawful, WithdrawOffer;
    LawfulRefl(db);
    if !(o !in db.orders || !db.orders[o].request.byDispatcher
         || db.orders[o].driver.Some? || db.orders[o].reserved.Some?
         || db.orders[o].status !in {Created, Searching, Queued, ChatSearch, NoDrivers}) {
      CancelledOffer(db, o);
    }
  }

  lemma ChatTimeoutKeeps(db: Db, o: OrderId)
    requires Inv(db)
    ensures Inv(ChatTimeout(db, o)) && Lawful(db, ChatTimeout(db, o))
  {
    hide InvDuring, Lawful;
    LawfulRefl(db);
    if o in db.orders && db.orders[o].status == ChatSearch {
      RowPartsOf(db, o, None);
      var row := db.orders[o].(status := Cancelled);
      ClosedElsewhere(db, o, row);
      FreeRow(db, o, row, db.parked, None);
      assert Put(db, o, row) == Put(db, o, row).(parked := db.parked);
      LawfulPut(db, db, o, row, Put(db, o, row));
    }
  }

  // What a new address may do: replace the route of its own order, whose fallback
  // and exclusions start afresh, and otherwise keep to the law.
  ghost predicate AddressLaw(db: Db, db': Db, o: OrderId)
  {
    && db'.orders.Keys == db.orders.Keys
    && (forall a :: a in db.orders && a != o ==> RowLaw(db.orders[a], db'.orders[a]))
    && (o in db.orders ==> RowAddress(db.orders[o], db'.orders[o]))
  }

  ghost predicate RowAddress(a: Order, b: Order)
  {
    && b.driver == a.driver && !Closed(a.status) && !Closed(b.status)
    && b.request == a.request.(route := b.request.route)
    && b.notes == a.notes.(autoExcluded := {})
  }

  // On an unassigned, open order a corrected address is an ordinary fresh start.
  lemma UpdateAddressKeeps(db: Db, o: OrderId, route: Route, env: Env, depth: nat)
    requires Inv(db) && (o in db.orders ==> db.orders[o].driver.None? && !Closed(db.orders[o].status))
    ensures var r := UpdateAddress(db, o, route, env, depth); r.Done? ==> Inv(r.db) && AddressLaw(db, r.db, o)
  {
    hide InvDuring, Lawful, OfferToNextDriver, Calm, Moves;
    if o in db.orders {
      RowPartsOf(db, o, None);
      var row := Readdressed(db.orders[o], route);
      UnparkLeavesOk(db, o, row);
      FreeRow(db, o, row, Unpark(db.parked, o), None);
      var free := Put(db, o, row).(parked := Unpark(db.parked, o));
      OfferKeeps(free, o, {}, None, env, depth, None);
      AdriftOpen(free, o);
      KeptCalm(free, OfferToNextDriver(free, o, {}, None, env, depth).db, o, None);
      AddressCalm(db, free, OfferToNextDriver(free, o, {}, None, env, depth).db, o, row);
    }
  }

  lemma AddressCalm(db: Db, free: Db, r: Db, o: OrderId, row: Order)
    requires o in db.orders && free.orders == db.orders[o := row] && RowAddress(db.orders[o], row)
    requires Calm(free, r)
    ensures AddressLaw(db, r, o)
  {
    CalmRow(free, r, o);
    forall a | a in db.orders && a != o ensures a in r.orders && RowLaw(db.orders[a], r.orders[a]) {
      CalmRow(free, r, a);
    }
  }

  // The text handler checks neither: on an order somebody owns it leaves a row no
  // reachable state has, on a closed one it reopens the order.
  lemma UpdateAddressIff(db: Db, o: OrderId, route: Route, env: Env, depth: nat)
    requires Inv(db) && o in db.orders
    requires UpdateAddress(db, o, route, env, depth).Done? && depth > 0
    ensures var r := UpdateAddress(db, o, route, env, depth).db;
      (Inv(r) && (Closed(db.orders[o].status) ==> o in r.orders && Closed(r.orders[o].status)))
      <==> db.orders[o].driver.None? && !Closed(db.orders[o].status)
  {
    hide InvDuring, Lawful, Calm, Moves, HandleNoDriver, Repair;
    var row := Readdressed(db.orders[o], route);
    var free := Put(db, o, row).(parked := Unpark(db.parked, o));
    var r := UpdateAddress(db, o, route, env, depth).db;
    RowPartsOf(db, o, None);
    if db.orders[o].driver.Some? {
      assert r == free;
      assert !RowOk(r.orders[o]);
      if Inv(r) { RowPartsOf(r, o, None); }
    } else if Closed(db.orders[o].status) {
      ReopenedStaysOpen(db, free, r, o, route, env, depth);
    } else {
      UpdateAddressKeeps(db, o, route, env, depth);
    }
  }

  lemma ReopenedStaysOpen(db: Db, free: Db, r: Db, o: OrderId, route: Route, env: Env, depth: nat)
    requires Inv(db) && o in db.orders && Closed(db.orders[o].status) && db.orders[o].driver.None?
    requires free == Put(db, o, Readdressed(db.orders[o], route)).(parked := Unpark(db.parked, o))
    requires r == OfferToNextDriver(free, o, {}, None, env, depth).db
    ensures o in r.orders && !Closed(r.orders[o].status)
  {
    hide InvDuring, Calm, Moves, OfferToNextDriver;
    RowPartsOf(db, o, None);
    var row := Readdressed(db.orders[o], route);
    UnparkLeavesOk(db, o, row);
    FreeRow(db, o, row, Unpark(db.parked, o), None);
    OfferKeeps(free, o, {}, None, env, depth, None);
    AdriftOpen(free, o);
    KeptCalm(free, r, o, None);
    CalmRow(free, r, o);
  }

  // ---------------------------------------------------------------- the line

  // A driver with an open menu is committed to nothing.
  lemma MenuMeansFree(db: Db, d: DriverId)
    requires Inv(db) && MenuOpen(db, d)
    ensures !OfferedTo(db, d) && !HasClaim(db.orders, d, Ride) && !HasClaim(db.orders, d, Reservation)
  {
    hide InvDuring;
    OfferOfIsOffer(db, d);
    NoRideNoWork(db, d);
  }

  lemma MenuMoves(db: Db, r: Db, d: DriverId)
    requires Inv(db) && MenuOpen(db, d) && OnlyDriver(db, r, d)
    ensures Inv(r) && Lawful(db, r)
  {
    hide InvDuring, Lawful, OnlyDriver, OfferedTo, HasClaim;
    MenuMeansFree(db, d);
    DriverMoves(db, r, d, None);
    SameOrders(db, r, d);
    LawfulRefl(db);
    LawfulSame(db, db, r);
  }

  lemma JoinedLocal(db: Db, d: DriverId, line: Option<Line>)
    requires d in db.drivers
    ensures OnlyDriver(db, OnLineNow(Join(db, d, line), d), d)
    ensures OnlyDriver(db, OnLineNow(db, d), d)
    ensures line.Some? ==> OnlyDriver(db, WithLine(OnLineNow(Join(db, d, line), d), d, line.value), d)
  {
    hide MaxPosition;
  }

  lemma GoneLocal(db: Db, d: DriverId, away: bool)
    requires d in db.drivers
    ensures OnlyDriver(db, Gone(db, d, away), d)
  {
    AwayLocal(db, d);
    OffLineIsLocal(db, d);
  }

  lemma OnlineSound(db: Db, d: DriverId, line: Line, env: Env, depth: nat)
    requires Inv(db)
    ensures Sound(db, GoOnline(db, d, env, depth))
    ensures Sound(db, SetLine(db, d, line, env, depth))
    ensures Sound(db, StayLine(db, d, env, depth))
  {
    hide InvDuring, Lawful, OnlyDriver, TryPromote, OnLineNow, Join, WithLine, RideOf;
    LawfulRefl(db);
    if MenuOpen(db, d) {
      var back := if db.drivers[d].status == Away && d in db.queue then db.queue[d].line
                  else if db.drivers[d].status == Away then None else KnownLine(db, d);
      var known := KnownLine(db, d);
      JoinedLocal(db, d, back);
      JoinedLocal(db, d, Some(line));
      JoinedLocal(db, d, known);
      MenuMoves(db, OnLineNow(Join(db, d, back), d), d);
      MenuMoves(db, WithLine(OnLineNow(Join(db, d, Some(line)), d), d, line), d);
      MenuMoves(db, OnLineNow(Join(db, d, known), d), d);
      MenuMoves(db, OnLineNow(db, d), d);
      PromoteSound(db, OnLineNow(Join(db, d, back), d), env, depth);
      PromoteSound(db, WithLine(OnLineNow(Join(db, d, Some(line)), d), d, line), env, depth);
      PromoteSound(db, OnLineNow(Join(db, d, known), d), env, depth);
      PromoteSound(db, OnLineNow(db, d), env, depth);
    }
  }

  lemma OffSound(db: Db, d: DriverId)
    requires Inv(db)
    ensures Inv(LeaveLine(db, d)) && Lawful(db, LeaveLine(db, d))
    ensures Inv(AwayExpire(db, d)) && Lawful(db, AwayExpire(db, d))
  {
    hide InvDuring, Lawful, OnlyDriver, OfferedTo, HasClaim, RideOf;
    LawfulRefl(db);
    if d in db.drivers {
      OffLineIsLocal(db, d);
      assert OffLine(db, d).drivers[d].status == Offline;
      SameOrders(db, OffLine(db, d), d);
      LawfulSame(db, db, OffLine(db, d));
      if MenuOpen(db, d) { MenuMoves(db, OffLine(db, d), d); }
      if db.drivers[d].status == Away {
        NotOffered(db, d, None);
        DriverMoves(db, OffLine(db, d), d, None);
      }
    }
  }

  lemma StepOutSound(db: Db, d: DriverId, away: bool, env: Env, depth: nat)
    requires Inv(db)
    ensures Sound(db, StepOut(db, d, away, env, depth))
  {
    hide InvDuring, Lawful, OnlyDriver, TryPromote, Gone, DropHold, HoldBelow, RideOf, OfferToNextDriver, OfferOf;
    LawfulRefl(db);
    if MenuOpen(db, d) {
      GoneLocal(db, d, away);
      MenuMoves(db, Gone(db, d, away), d);
      var h := HoldBelow(db.holds, None, Some(d), db.nextHold);
      if h.Some? {
        DropHoldKeeps(db, h.value);
        var mid := DropHold(db, h.value);
        PromoteSound(db, mid, env, depth);
        MenuMeansFree(db, d);
        HeldThenGone(db, mid, d, away, env, depth);
      }
    }
  }

  // Leaving state t is sound, whether or not an offer has just come in.
  ghost predicate LeavesWell(db: Db, t: Db, d: DriverId, away: bool, env: Env, depth: nat)
    requires d in t.drivers
  {
    match OfferOf(t, d)
    case None => Inv(Gone(t, d, away)) && Lawful(db, Gone(t, d, away))
    case Some(p) =>
      var row := WithRefusal(t.orders[p], d, false).(offered := None);
      && Inv(Put(Gone(t, d, away), p, row.(status := Cancelled)))
      && Lawful(db, Put(Gone(t, d, away), p, row.(status := Cancelled)))
      && Sound(db, OfferToNextDriver(Put(Gone(t, d, away), p, row), p, {}, None, env, depth))
  }

  // What follows once the hold is dropped and the opportunity check has run.
  lemma HeldThenGone(db: Db, mid: Db, d: DriverId, away: bool, env: Env, depth: nat)
    requires Inv(mid) && Lawful(db, mid) && d in mid.drivers
    requires !HasClaim(mid.orders, d, Ride) && !HasClaim(mid.orders, d, Reservation)
    ensures var t := TryPromote(mid, env, depth);
      t.Done? ==> (d in t.db.drivers && Lawful(db, t.db) && LeavesWell(db, t.db, d, away, env, depth))
  {
    hide InvDuring, Lawful, OnlyDriver, TryPromote, Gone, HasClaim, OfferedTo, Calm, OfferToNextDriver, RowOk, RowLaw;
    var t := TryPromote(mid, env, depth);
    if t.Done? {
      TryPromoteKeeps(mid, env, depth, None);
      CalmFrame(mid, t.db);
      LawfulCalm(db, mid, t.db);
      InvParts(mid, None);
      CalmClaims(mid, t.db, d, Ride);
      CalmClaims(mid, t.db, d, Reservation);
      GoneLocal(t.db, d, away);
      OfferOfIsOffer(t.db, d);
      var gone := Gone(t.db, d, away);
      SameOrders(t.db, gone, d);
      LawfulSame(db, t.db, gone);
      if OfferOf(t.db, d).None? {
        DriverMoves(t.db, gone, d, None);
      } else {
        OfferedLeaves(db, mid, t.db, gone, d, OfferOf(t.db, d).value, env, depth);
      }
    }
  }

  lemma OfferedLeaves(db: Db, mid: Db, t: Db, gone: Db, d: DriverId, p: OrderId, env: Env, depth: nat)
    requires Inv(t) && Lawful(db, mid) && Calm(mid, t) && d in t.drivers && LiveOffer(t.orders, p, d)
    requires OnlyDriver(t, gone, d)
    ensures var row := WithRefusal(t.orders[p], d, false).(offered := None);
      && Inv(Put(gone, p, row.(status := Cancelled))) && Lawful(db, Put(gone, p, row.(status := Cancelled)))
      && Sound(db, OfferToNextDriver(Put(gone, p, row), p, {}, None, env, depth))
  {
    hide InvDuring, Lawful, OnlyDriver, Calm, OfferToNextDriver, RowOk, RowLaw;
    var row := WithRefusal(t.orders[p], d, false).(offered := None);
    OfferedIsSearching(t, p);
    LeaverRow(t.orders[p], d);
    OfferFreed(t, p, d, row, gone, env);
    OfferFreed(t, p, d, row.(status := Cancelled), gone, env);
    SameOrders(t, gone, d);
    CalmLawfulFrom(db, mid, t, Put(gone, p, row));
    CalmLawfulFrom(db, mid, t, Put(gone, p, row.(status := Cancelled)));
    OfferSound(db, Put(gone, p, row), p, {}, env, depth);
  }

  // Nobody owned what the check has just offered.
  lemma CalmLawfulFrom(db: Db, mid: Db, t: Db, r: Db)
    requires Lawful(db, mid) && Calm(mid, t) && Lawful(t, r)
    requires forall a :: a in t.orders ==> a in r.orders && r.orders[a].driver == t.orders[a].driver
    ensures Lawful(db, r)
  {
    forall a | a in db.orders ensures a in r.orders && RowLaw(db.orders[a], r.orders[a]) {
      assert RowLaw(db.orders[a], mid.orders[a]);
      assert RowCalm(mid.orders[a], t.orders[a]);
      assert RowLaw(t.orders[a], r.orders[a]);
    }
  }

  lemma LeaverRow(row: Order, d: DriverId)
    requires RowOk(row) && Owns(row, d, Offer)
    ensures var r := WithRefusal(row, d, false).(offered := None);
      && RowOk(r) && Holder(r).None? && r.slot == NO_ROUTE_OFFER && RowLaw(row, r)
      && RowOk(r.(status := Cancelled)) && Holder(r.(status := Cancelled)).None? && RowLaw(row, r.(status := Cancelled))
      && r.driver.None? && r.reserved.None? && r.status == Searching
  {
  }
}
