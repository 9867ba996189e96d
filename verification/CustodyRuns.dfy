// Ownership over whole runs: whatever transactions run, regular or not, no driver
// takes an order from another, and what is noted about an order stays noted.
module CustodyRuns {
  import opened Options
  import opened DispatchState
  import opened OrderTable
  import opened DriverLine
  import opened Cascade
  import opened PassengerQueue
  import opened Trips
  import opened Handoff
  import opened OfferSteps
  import opened ClaimSteps
  import opened RouteSteps
  import opened TripSteps
  import opened PassengerSteps
  import opened Protocol
  import opened Custody

  // ---------------------------------------------------------------- claims

  // A step with driver d as the claimant of order o.
  ghost predicate TameOrTaken(db: Db, db': Db, o: OrderId, d: DriverId, loose: set<OrderId>)
  {
    Tame(db, db', NOBODY) || Taken(db, db', o, d, loose)
  }

  lemma AcceptTame(db: Db, o: OrderId, d: DriverId, env: Env, depth: nat)
    requires Sane(db)
    ensures TameOrTaken(db, Accept(db, o, d, env, depth).db, o, d, {})
  {
    hide Tame, Taken, Sane, OfferToNextDriver, TryPromote, OffLine;
    hide MarkAssigned, RowTame, RowSane, WithRefusal, Claimed, Withdrawn;
    AlikeTame(db, db, NOBODY);
    if o in db.orders && d in db.drivers && db.orders[o].offered == Some(d)
        && db.orders[o].status in {Searching, Created} {
      var row := db.orders[o];
      RowOfSane(db, o);
      AcceptedRows(row, o, d, env);
      OffLineOrders(db, d);
      if !db.drivers[d].carReady {
        var refused := WithRefusal(Withdrawn(row, env), d, false);
        var dead, free := Put(OffLine(db, d), o, refused.(status := Cancelled)),
            Put(OffLine(db, d), o, refused.(status := Searching));
        RewriteTame(db, dead, o, refused.(status := Cancelled), NOBODY);
        ThenCheck(db, dead, env, depth, NOBODY);
        if row.request.requested.None? {
          RewriteTame(db, free, o, refused.(status := Searching), NOBODY);
          ThenOffer(db, free, o, {}, None, env, depth, NOBODY);
        }
      } else {
        var taken := Claimed(Withdrawn(row, env), o, d, env);
        ClaimTaken(db, Put(MarkAssigned(db, d), o, taken), o, d, taken, {});
      }
    }
  }

  // The rows an acceptance may leave, with and without a car.
  lemma AcceptedRows(row: Order, o: OrderId, d: DriverId, env: Env)
    requires RowSane(row) && row.offered == Some(d) && row.status in {Searching, Created}
    ensures row.driver.None? && !Closed(row.status)
    ensures var refused := WithRefusal(Withdrawn(row, env), d, false);
      forall s :: s == Cancelled || (s == Searching && row.request.requested.None?) ==>
        RowTame(row, refused.(status := s), Bound) && RowSane(refused.(status := s)) && refused.slot == row.slot
    ensures var taken := Claimed(Withdrawn(row, env), o, d, env);
      RowTame(OwnedRow(row, d, taken.notes.claimedOffline), taken, Bound) && RowSane(taken) && taken.slot.trip.None?
  {
  }

  lemma OffLineOrders(db: Db, d: DriverId)
    requires d in db.drivers
    ensures Alike(db, OffLine(db, d)) && Alike(db, MarkAssigned(db, d)) && Alike(db, ReleaseOffer(db, d))
    ensures Alike(db, RestorePosition(db, d)) && Alike(db, ReturnToQueue(db, d)) && Alike(db, SetAway(db, d))
    ensures Alike(db, AdminRestore(db, d)) && Alike(db, OnLineNow(db, d))
    ensures forall line :: Alike(db, Join(db, d, line)) && Alike(db, BroughtIn(db, d, line))
    ensures forall reason :: Alike(db, AfterRefusal(db, d, reason))
  {
  }

  lemma TakeOverTaken(db: Db, ready: Db, o: OrderId, d: DriverId, offline: bool, env: Env, loose: set<OrderId>)
    requires Sane(db) && Alike(db, ready) && o in db.orders && d in ready.drivers && !Closed(db.orders[o].status)
    requires db.orders[o].driver.Some? ==> db.orders[o].driver == Some(d)
    requires o in loose || db.orders[o].offered.None?
    ensures Taken(db, TakeOver(ready, o, d, offline, env), o, d, loose)
  {
    hide Tame, Taken, Sane;
    ClaimTaken(db, TakeOver(ready, o, d, offline, env), o, d, WithOrigin(Claimed(db.orders[o], o, d, env), offline),
        loose);
  }

  lemma TakePendingTame(db: Db, o: OrderId, d: DriverId, env: Env)
    requires Sane(db)
    ensures TameOrTaken(db, TakePending(db, o, d, env).db, o, d, {})
  {
    hide Tame, Taken, Sane, TakeOver, RideOf, OfferOf, BroughtIn;
    AlikeTame(db, db, NOBODY);
    if PendingOpen(db, o, d) {
      var line := db.drivers[d].currentLine;
      OffLineOrders(db, d);
      BroughtKeeps(db, d, line);
      TakeOverTaken(db, db, o, d, false, env, {});
      TakeOverTaken(db, BroughtIn(db, d, line), o, d, false, env, {});
    }
  }

  lemma BroughtKeeps(db: Db, d: DriverId, line: Option<Line>)
    requires d in db.drivers
    ensures d in BroughtIn(db, d, line).drivers && Alike(db, BroughtIn(db, d, line))
  {
  }

  // The offer withdrawn from a driver who claims order o from the chat.
  function WithdrawnBy(db: Db, o: OrderId, d: DriverId): Option<OrderId>
  {
    if ChatOpen(db, o, d) && OfferOf(db, d) != Some(o) then OfferOf(db, d) else None
  }

  // The orders a claim from the chat may take out of the hands they are in.
  function ChatLoosens(db: Db, o: OrderId, d: DriverId): set<OrderId>
  {
    if !ChatOpen(db, o, d) then {}
    else if WithdrawnBy(db, o, d).Some? then {o, WithdrawnBy(db, o, d).value} else {o}
  }

  lemma TakeFromChatTame(db: Db, o: OrderId, d: DriverId, env: Env, depth: nat)
    requires Sane(db)
    ensures TameOrTaken(db, TakeFromChat(db, o, d, env, depth).db, o, d, ChatLoosens(db, o, d))
  {
    hide Tame, Taken, Sane, TakeOver, Readied, RideOf, OfferBelow, OfferToNextDriver, ReleaseOffer;
    AlikeTame(db, db, NOBODY);
    if ChatOpen(db, o, d) {
      var loose := ChatLoosens(db, o, d);
      var other := WithdrawnBy(db, o, d);
      OffLineOrders(db, d);
      var freed := if other.Some?
                   then Put(ReleaseOffer(db, d), other.value, db.orders[other.value].(offered := None)) else db;
      AlikeTame(db, db, LooseOnes(loose));
      if other.Some? {
        RowOfSane(db, other.value);
        RewriteTame(db, freed, other.value, db.orders[other.value].(offered := None), LooseOnes(loose));
        KeepsDrivers(db, d);
      }
      TameSane(db, freed, LooseOnes(loose));
      ReadiedAlike(freed, d);
      var taken := TakeOver(Readied(freed, d), o, d, !freed.drivers[d].onLine, env);
      TakeOverTaken(freed, Readied(freed, d), o, d, !freed.drivers[d].onLine, env, loose);
      ThenTaken(db, freed, taken, o, d, loose);
      if other.Some? {
        TakeOverKeys(Readied(freed, d), o, d, !freed.drivers[d].onLine, env);
        TakenSane(db, taken, o, d, loose);
        OfferTame(taken, other.value, {}, None, env, depth);
        TakenThen(db, taken, OfferToNextDriver(taken, other.value, {}, None, env, depth).db, o, d, loose);
      }
    }
  }

  lemma KeepsDrivers(db: Db, d: DriverId)
    requires d in db.drivers
    ensures ReleaseOffer(db, d).drivers.Keys == db.drivers.Keys
  {
  }

  lemma ReadiedAlike(db: Db, d: DriverId)
    requires d in db.drivers
    ensures Alike(db, Readied(db, d)) && d in Readied(db, d).drivers
  {
  }

  lemma TakeOverKeys(db: Db, o: OrderId, d: DriverId, offline: bool, env: Env)
    requires o in db.orders && d in db.drivers
    ensures TakeOver(db, o, d, offline, env).orders.Keys == db.orders.Keys
  {
  }

  lemma TakenIsSane(db: Db, db': Db, o: OrderId, d: DriverId, loose: set<OrderId>)
    requires TameOrTaken(db, db', o, d, loose)
    ensures Sane(db')
  {
    hide Tame, Sane;
    if Tame(db, db', NOBODY) { TameSane(db, db', NOBODY); }
    else { TakenSane(db, db', o, d, loose); }
  }

  lemma ReserveTame(db: Db, o: OrderId, d: DriverId, card: bool, env: Env)
    requires Sane(db)
    ensures TameOrTaken(db, Reserve(db, o, d, card, env).db, o, d, {})
  {
    hide Tame, Taken, Sane, RideOf, ReservationOf, Repair, FreeDriverHasPriority, OnTheWay;
    AlikeTame(db, db, NOBODY);
    if MayReserve(db, o, d, card) {
      RepairAlike(db);
      var probed := AfterPriority(db, o);
      AlikeTame(db, probed, NOBODY);
      CandidateSane(db, o);
      var row := Reserved(db.orders[o], o, d, env);
      ClaimTaken(db, TakeAside(probed, o, d, env), o, d, row, {});
    }
  }

  // ---------------------------------------------------------------- refusals

  lemma DeclineTame(db: Db, o: OrderId, d: DriverId, reason: Reason, env: Env, depth: nat)
    requires Sane(db)
    ensures Tame(db, Decline(db, o, d, reason, env, depth).db, NOBODY)
  {
    hide Tame, Sane, OfferToNextDriver, TryPromote, ThenPromote, AfterRefusal, Refused, RowTame, RowSane;
    AlikeTame(db, db, NOBODY);
    if LiveOffer(db.orders, o, d) && d in db.drivers {
      RowOfSane(db, o);
      RefusedTame(db.orders[o], d, reason, env);
      OffLineOrders(db, d);
      var row := Refused(db.orders[o], d, reason, env);
      var free := Put(AfterRefusal(db, d, reason), o, row);
      RewriteTame(db, free, o, row, NOBODY);
      ThenCheck(db, free, env, depth, NOBODY);
      ThenOffer(db, free, o, {}, None, env, depth, NOBODY);
    }
  }

  lemma RefusedTame(row: Order, d: DriverId, reason: Reason, env: Env)
    requires RowSane(row) && row.status == Searching && row.offered.Some?
    ensures var r := Refused(row, d, reason, env); RowTame(row, r, Bound) && RowSane(r) && r.slot == row.slot
  {
    hide WithRefusal;
    var free := Withdrawn(row, env);
    NotedRow(free, d, reason in {Far, DeliveryRefused});
    assert row.request.requested.Some? ==> Refused(row, d, reason, env).status == Cancelled;
  }

  lemma NotedRow(row: Order, d: DriverId, chat: bool)
    ensures var r := WithRefusal(row, d, chat);
      && r == row.(notes := r.notes)
      && r.notes == row.notes.(declined := r.notes.declined, chatReason := r.notes.chatReason)
      && row.notes.declined <= r.notes.declined
  {
  }

  lemma SilenceTame(db: Db, o: OrderId, d: DriverId, env: Env, depth: nat)
    requires Sane(db)
    ensures Tame(db, AcceptTimeout(db, o, d, env, depth).db, NOBODY)
    ensures Tame(db, Unreachable(db, o, d, env, depth).db, NOBODY)
  {
    hide Tame, Sane, OfferToNextDriver, TryPromote, ThenPromote, OffLine;
    AlikeTame(db, db, NOBODY);
    if LiveOffer(db.orders, o, d) && d in db.drivers {
      RowOfSane(db, o);
      OffLineOrders(db, d);
      var off := OffLine(db, d);
      var row := Withdrawn(db.orders[o], env);
      var dead, free, gone := Put(off, o, row.(status := Cancelled)), Put(off, o, row),
          Put(off, o, db.orders[o].(offered := None));
      RewriteTame(db, dead, o, row.(status := Cancelled), NOBODY);
      ThenCheck(db, dead, env, depth, NOBODY);
      if row.request.requested.None? {
        RewriteTame(db, free, o, row, NOBODY);
        ThenOffer(db, free, o, {d}, None, env, depth, NOBODY);
      }
      if CardRecognized(db, o, d) {
        RewriteTame(db, gone, o, db.orders[o].(offered := None), NOBODY);
        ThenOffer(db, gone, o, {}, None, env, depth, NOBODY);
      }
    }
  }

  lemma DeclineReservedTame(db: Db, o: OrderId, d: DriverId, env: Env, depth: nat)
    requires Sane(db)
    ensures Tame(db, DeclineReserved(db, o, d, env, depth).db, NOBODY)
    ensures Tame(db, EtaTimeout(db, o, env, depth).db, NOBODY)
  {
    hide Tame, Sane, RideOf, Fallback, ReleaseReservation, CardClosed, Unreserved, RowTame, RowSane, RouteCity;
    AlikeTame(db, db, NOBODY);
    if o in db.orders && db.orders[o].status == ParallelAssigned {
      CandidateSane(db, o);
      RowOfSane(db, o);
      FreedRows(db.orders[o], env);
      var closed := Put(db, o, CardClosed(db.orders[o], env));
      RewriteTame(db, closed, o, CardClosed(db.orders[o], env), NOBODY);
      ReparkTame(db, closed, o, env, depth);
      var free := Put(closed, o, Unreserved(closed.orders[o]));
      ThenRewrite(db, closed, free, o, Unreserved(closed.orders[o]), NOBODY);
      ThenFallback(db, free, o, env, depth);
    }
  }

  lemma FreedRows(row: Order, env: Env)
    requires RowSane(row) && row.status == ParallelAssigned
    ensures var closed := CardClosed(row, env);
      && RowTame(row, closed, Bound) && RowSane(closed) && closed.slot == row.slot
      && Pendent(closed)
      && RowTame(closed, Unreserved(closed), Bound) && RowSane(Unreserved(closed))
      && Unreserved(closed).slot == row.slot
  {
  }

  lemma DeclineRouteTame(db: Db, o: OrderId, d: DriverId, env: Env, depth: nat)
    requires Sane(db)
    ensures Tame(db, DeclineRoute(db, o, d, env, depth).db, NOBODY)
  {
    hide Tame, Sane, Fallback, RouteCity, Riding;
    AlikeTame(db, db, NOBODY);
    if o in db.orders {
      ExcludedTame(db, db, o, d);
      ThenFallback(db, Put(db, o, Excluded(db.orders[o], d)), o, env, depth);
    }
  }

  lemma ExcludedTame(db: Db, mid: Db, o: OrderId, d: DriverId)
    requires Sane(db) && Tame(db, mid, NOBODY) && o in mid.orders
    ensures Tame(db, Put(mid, o, Excluded(mid.orders[o], d)), NOBODY)
    ensures Tame(db, Put(mid, o, ClearRoute(mid.orders[o])), NOBODY)
  {
    hide Tame, Sane;
    TameSane(db, mid, NOBODY);
    RowOfSane(mid, o);
    ThenRewrite(db, mid, Put(mid, o, Excluded(mid.orders[o], d)), o, Excluded(mid.orders[o], d), NOBODY);
    ThenRewrite(db, mid, Put(mid, o, ClearRoute(mid.orders[o])), o, ClearRoute(mid.orders[o]), NOBODY);
  }

  lemma RouteTimeoutTame(db: Db, o: OrderId, env: Env, depth: nat)
    requires Sane(db)
    ensures Tame(db, RouteTimeout(db, o, env, depth).db, NOBODY)
  {
    hide Tame, Sane, Fallback, ThenPromote, Suppressed, Excluded;
    AlikeTame(db, db, NOBODY);
    if o in db.orders && db.orders[o].slot.driver.Some? && db.orders[o].slot.trip.Some? {
      var d, trip := db.orders[o].slot.driver.value, db.orders[o].slot.trip.value;
      ExcludedTame(db, db, o, d);
      QuietTame(db, trip, d);
      ExcludedTame(db, Suppressed(db, trip, d), o, d);
      ThenFallback(db, Put(Suppressed(db, trip, d), o, Excluded(Suppressed(db, trip, d).orders[o], d)), o, env, depth);
    }
  }

  lemma QuietTame(db: Db, trip: OrderId, d: DriverId)
    requires Sane(db)
    ensures Tame(db, Suppressed(db, trip, d), NOBODY)
  {
    hide Tame, Sane;
    AlikeTame(db, db, NOBODY);
    if trip in db.orders {
      RowOfSane(db, trip);
      var row := db.orders[trip].(notes := db.orders[trip].notes.(autoOffersDisabled := true));
      RewriteTame(db, Put(db, trip, row), trip, row, NOBODY);
    }
  }

  // ---------------------------------------------------------------- the ride

  lemma RideTame(db: Db, ev: Event, env: Env)
    requires Sane(db) && IsRiding(ev)
    ensures Tame(db, OnTheRide(db, ev, env), NOBODY)
  {
    hide Tame, Sane, ChooseEta, Depart, Arrive, RideOf;
    match ev
    case NamesTime(o, d) => ChooseEtaTame(db, o, d, env);
    case Departs(d) => DepartTame(db, d, env);
    case Boards(d) => SeatTame(db, d, InProgress);
    case Arrives(d) => ArriveTame(db, d, env);
  }

  lemma ChooseEtaTame(db: Db, o: OrderId, d: DriverId, env: Env)
    requires Sane(db)
    ensures Tame(db, ChooseEta(db, o, d, env), NOBODY)
  {
    hide Tame, Sane;
    AlikeTame(db, db, NOBODY);
    if o in db.orders && Reserves(db.orders[o], d) {
      RowOfSane(db, o);
      var r := ChooseEta(db, o, d, env);
      RewriteTame(db, r, o, r.orders[o], NOBODY);
    }
  }

  lemma DepartTame(db: Db, d: DriverId, env: Env)
    requires Sane(db)
    ensures Tame(db, Depart(db, d, env), NOBODY)
  {
    hide Tame, Sane, RideOf;
    AlikeTame(db, db, NOBODY);
    if RideOf(db, d).Some? {
      var o := RideOf(db, d).value;
      RowOfSane(db, o);
      var r := Depart(db, d, env);
      RewriteTame(db, r, o, r.orders[o], NOBODY);
    }
  }

  // The ride of a driver goes on.
  lemma SeatTame(db: Db, d: DriverId, s: Status)
    requires Sane(db) && Riding(s)
    ensures RideOf(db, d).Some? ==>
              var o := RideOf(db, d).value; Tame(db, Put(db, o, db.orders[o].(status := s)), NOBODY)
    ensures Tame(db, db, NOBODY)
  {
    hide Tame, Sane, RideOf;
    AlikeTame(db, db, NOBODY);
    if RideOf(db, d).Some? {
      var o := RideOf(db, d).value;
      RowOfSane(db, o);
      RewriteTame(db, Put(db, o, db.orders[o].(status := s)), o, db.orders[o].(status := s), NOBODY);
    }
  }

  lemma ArriveTame(db: Db, d: DriverId, env: Env)
    requires Sane(db)
    ensures Tame(db, Arrive(db, d, env), NOBODY)
  {
    hide Tame, Sane, RideOf, NotifyBusyDrivers, LatestAvailable;
    SeatTame(db, d, Arrived);
    if RideOf(db, d).Some? {
      var o := RideOf(db, d).value;
      var there := Put(db, o, db.orders[o].(status := Arrived));
      TameSane(db, there, NOBODY);
      var a := LatestAvailable(there, there.nextOrder);
      if a.Some? {
        NotifyTame(there, a.value, env);
        TameThen(db, there, NotifyBusyDrivers(there, a.value, env).db, NOBODY);
      }
    }
  }

  // ---------------------------------------------------------------- ends

  lemma EndRideTame(db: Db, o: OrderId, row: Order, env: Env, depth: nat)
    requires Sane(db) && o in db.orders && RowTame(db.orders[o], row, Bound) && RowSane(row)
    requires row.slot == db.orders[o].slot
    ensures Tame(db, EndRide(db, o, row, env, depth).db, NOBODY)
    ensures Closed(row.status) ==> Closed(EndRide(db, o, row, env, depth).db.orders[o].status)
    ensures Tame(db, ReleaseThenClose(db, o, row, env, depth).db, NOBODY)
    ensures ReleaseThenClose(db, o, row, env, depth).Done? ==>
              ReleaseThenClose(db, o, row, env, depth).db.orders[o] == ClearRoute(row)
  {
    hide Tame, Sane, ReleaseRouteOffers, RowTame, RowSane, Remove;
    var put := Put(db, o, row);
    RewriteTame(db, put, o, row, NOBODY);
    ReleaseTame(db, put, o, env, depth);
    TameSane(db, put, NOBODY);
    AlikeTame(put, put, NOBODY);
    ReleaseTame(put, put, o, env, depth);
    TameKeys(put, ReleaseRouteOffers(put, o, env, depth).db, NOBODY, o);
    StaysClosed(row, ReleaseRouteOffers(put, o, env, depth).db.orders[o]);
    AlikeTame(db, db, NOBODY);
    ReleaseTame(db, db, o, env, depth);
    var r := ReleaseRouteOffers(db, o, env, depth).db;
    var closed := Put(r, o, row);
    ThenOverwrite(db, r, closed, o, row, NOBODY);
    RemoveTame(db, closed, o);
  }

  lemma StaysClosed(a: Order, b: Order)
    requires RowTame(a, b, Bound)
    ensures Closed(a.status) ==> Closed(b.status)
  {
  }

  lemma RemoveTame(db: Db, mid: Db, o: OrderId)
    requires Tame(db, mid, NOBODY) && o in mid.orders
    ensures Tame(db, Remove(mid, o), NOBODY) && Remove(mid, o).orders[o] == ClearRoute(mid.orders[o])
  {
    hide Tame, Sane;
    TameSane(db, mid, NOBODY);
    RowOfSane(mid, o);
    ThenRewrite(db, mid, Remove(mid, o), o, ClearRoute(mid.orders[o]), NOBODY);
  }

  lemma HandOnTame(db: Db, mid: Db, idle: Db, d: DriverId, env: Env)
    requires Tame(db, mid, NOBODY) && Alike(mid, idle)
    ensures Tame(db, HandOn(mid, idle, d, env), NOBODY)
  {
    hide Tame, ReservationOf;
    PromotedTame(db, mid, d, env);
    ThenAlike(db, mid, idle, NOBODY);
  }

  lemma CompleteTame(db: Db, d: DriverId, env: Env, depth: nat)
    requires Sane(db)
    ensures Tame(db, Complete(db, d, env, depth).db, NOBODY)
  {
    hide Tame, Sane, RideOf, EndRide, HandOn, SetAway, LeftIfTemporary, RowTame, RowSane;
    AlikeTame(db, db, NOBODY);
    if RideOf(db, d).Some? && d in db.drivers {
      var o := RideOf(db, d).value;
      var row := db.orders[o].(status := Completed);
      RiddenRow(db, o, d);
      EndRideTame(db, o, row, env, depth);
      var r := EndRide(db, o, row, env, depth).db;
      if d in r.drivers { LeftTame(db, r, d, row, env); }
    }
  }

  lemma RiddenRow(db: Db, o: OrderId, d: DriverId)
    requires Sane(db) && o in db.orders && Locks(db.orders[o], d)
    ensures var row := db.orders[o].(status := Completed); RowTame(db.orders[o], row, Bound) && RowSane(row)
  {
  }

  lemma LeftTame(db: Db, r: Db, d: DriverId, row: Order, env: Env)
    requires Tame(db, r, NOBODY) && d in r.drivers
    ensures var left := LeftIfTemporary(r, d, row); Tame(db, HandOn(left, SetAway(left, d), d, env), NOBODY)
  {
    hide Tame, HandOn, SetAway, LeftIfTemporary;
    AsideAlike(r, d, row);
    var left := LeftIfTemporary(r, d, row);
    OffLineOrders(left, d);
    ThenAlike(db, r, left, NOBODY);
    HandOnTame(db, left, SetAway(left, d), d, env);
  }

  lemma WithdrawTame(db: Db, mid: Db, o: OrderId)
    requires Tame(db, mid, NOBODY) && o in mid.orders && Closed(mid.orders[o].status)
    ensures Tame(db, WithdrawOffer(mid, o), NOBODY)
  {
    hide Tame, Sane, ReleaseOffer;
    var row := mid.orders[o];
    ThenAlike(db, mid, mid, NOBODY);
    if row.offered.Some? && row.offered.value in mid.drivers {
      TameSane(db, mid, NOBODY);
      RowOfSane(mid, o);
      OffLineOrders(mid, row.offered.value);
      ThenRewrite(db, mid, WithdrawOffer(mid, o), o, row.(offered := None), NOBODY);
    }
  }

  lemma PassengerCancelTame(db: Db, o: OrderId, env: Env, depth: nat)
    requires Sane(db)
    ensures Tame(db, PassengerCancel(db, o, env, depth).db, NOBODY)
  {
    hide Tame, Sane, EndRide, Remove, HandOn, TryPromote, RestorePosition, WithdrawOffer, RowSane, RowTame;
    AlikeTame(db, db, NOBODY);
    if o in db.orders && PassengerMayCancel(db.orders[o]) {
      var row := db.orders[o].(status := Cancelled);
      CancelledRow(db, o);
      EndRideTame(db, o, row, env, depth);
      var r := EndRide(db, o, row, env, depth).db;
      RemoveTame(db, r, o);
      CancelledTame(db, Remove(r, o), o, env, depth);
    }
  }

  lemma CancelledRow(db: Db, o: OrderId)
    requires Sane(db) && o in db.orders
    ensures var row := db.orders[o].(status := Cancelled); RowTame(db.orders[o], row, Bound) && RowSane(row)
  {
  }

  // What a cancelling passenger leaves behind.
  lemma CancelledTame(db: Db, c: Db, o: OrderId, env: Env, depth: nat)
    requires Tame(db, c, NOBODY) && o in c.orders && Closed(c.orders[o].status)
    ensures Tame(db, TryPromote(WithdrawOffer(c, o), env, depth).db, NOBODY)
    ensures Tame(db, TryPromote(c, env, depth).db, NOBODY)
    ensures c.orders[o].reserved.Some? ==>
              Tame(db, TryPromote(Put(c, o, c.orders[o].(reserved := None, driver := None)), env, depth).db, NOBODY)
    ensures c.orders[o].driver.Some? && c.orders[o].driver.value in c.drivers ==>
              var d := c.orders[o].driver.value;
              Tame(db, TryPromote(HandOn(c, RestorePosition(c, d), d, env), env, depth).db, NOBODY)
  {
    hide Tame, Sane, HandOn, TryPromote, RestorePosition, WithdrawOffer;
    var was := c.orders[o];
    TameSane(db, c, NOBODY);
    RowOfSane(c, o);
    WithdrawTame(db, c, o);
    ThenCheck(db, WithdrawOffer(c, o), env, depth, NOBODY);
    ThenCheck(db, c, env, depth, NOBODY);
    var row := was.(reserved := None, driver := None);
    ThenRewrite(db, c, Put(c, o, row), o, row, NOBODY);
    ThenCheck(db, Put(c, o, row), env, depth, NOBODY);
    if was.driver.Some? && was.driver.value in c.drivers {
      OffLineOrders(c, was.driver.value);
      HandOnTame(db, c, RestorePosition(c, was.driver.value), was.driver.value, env);
      ThenCheck(db, HandOn(c, RestorePosition(c, was.driver.value), was.driver.value, env), env, depth, NOBODY);
    }
  }

  lemma DispatcherCancelTame(db: Db, o: OrderId, env: Env, depth: nat)
    requires Sane(db)
    ensures Tame(db, DispatcherCancel(db, o, env, depth).db, NOBODY)
  {
    hide Tame, Sane, ReleaseThenClose, HandOn, RestorePosition, WithdrawOffer, RowSane, RowTame;
    AlikeTame(db, db, NOBODY);
    if o in db.orders {
      CancelledRow(db, o);
      EndRideTame(db, o, db.orders[o].(status := Cancelled), env, depth);
    }
    if o in db.orders && ReleaseThenClose(db, o, db.orders[o].(status := Cancelled), env, depth).Done? {
      var row := db.orders[o].(status := Cancelled);
      CancelledRow(db, o);
      EndRideTame(db, o, row, env, depth);
      var c := ReleaseThenClose(db, o, row, env, depth).db;
      WithdrawTame(db, c, o);
      var was := c.orders[o];
      if was.driver.Some? && was.driver.value in c.drivers {
        OffLineOrders(c, was.driver.value);
        HandOnTame(db, c, RestorePosition(c, was.driver.value), was.driver.value, env);
      }
    }
  }

  lemma AdminCancelTame(db: Db, o: OrderId, env: Env, depth: nat)
    requires Sane(db)
    ensures Tame(db, AdminCancel(db, o, env, depth).db, NOBODY)
  {
    hide Tame, Sane, ReleaseThenClose, HandOn, AdminRestore, Riding;
    AlikeTame(db, db, NOBODY);
    if o in db.orders {
      var was := db.orders[o];
      var row := was.(status := Cancelled, offered := None, reserved := None);
      RowOfSane(db, o);
      EndRideTame(db, o, row, env, depth);
      var c := ReleaseThenClose(db, o, row, env, depth).db;
      if was.offered.Some? && was.offered.value in c.drivers { AdminGivesTame(db, c, was.offered.value, env); }
      if was.driver.Some? && was.driver.value in c.drivers { AdminGivesTame(db, c, was.driver.value, env); }
    }
  }

  lemma AdminGivesTame(db: Db, c: Db, d: DriverId, env: Env)
    requires Tame(db, c, NOBODY) && d in c.drivers
    ensures Tame(db, AdminRestore(c, d), NOBODY) && Tame(db, HandOn(c, AdminRestore(c, d), d, env), NOBODY)
  {
    hide Tame, AdminRestore, HandOn;
    OffLineOrders(c, d);
    ThenAlike(db, c, AdminRestore(c, d), NOBODY);
    HandOnTame(db, c, AdminRestore(c, d), d, env);
  }

  lemma ThenAwayTame(db: Db, r: Outcome, d: DriverId, x: Waiver)
    requires Tame(db, r.db, x)
    ensures Tame(db, ThenAway(r, d).db, x)
  {
    hide Tame, SetAway;
    if d in r.db.drivers {
      OffLineOrders(r.db, d);
      ThenAlike(db, r.db, SetAway(r.db, d), x);
    }
  }

  lemma GiveBackTame(db: Db, mid: Db, d: DriverId, env: Env, depth: nat)
    requires Tame(db, mid, NOBODY)
    ensures Tame(db, GiveBack(mid, d, env, depth).db, NOBODY)
  {
    hide Tame, Sane, ReservationOf, ReleaseReservation;
    var a := ReservationOf(mid, d);
    if a.Some? {
      TameSane(db, mid, NOBODY);
      CandidateSane(mid, a.value);
      ReparkTame(db, mid, a.value, env, depth);
    }
  }

  lemma CarFailureTame(db: Db, mid: Db, o: OrderId, d: DriverId, env: Env, depth: nat)
    requires Sane(db) && Tame(db, mid, NOBODY) && o in db.orders && !Closed(db.orders[o].status) && o in mid.orders
    requires d in mid.drivers
    ensures Tame(db, CarFailure(mid, o, d, env, depth).db,
              LooseOnes(if db.orders[o].notes.claimedOffline then {} else {o}))
  {
    hide Tame, Sane, GiveBack, SetAway, OffLine, OfferToNextDriver, ThenPromote, ThenAway;
    var w := LooseOnes(if db.orders[o].notes.claimedOffline then {} else {o});
    TameMore(db, mid, w);
    var r := GiveBack(mid, d, env, depth).db;
    GiveBackTame(db, mid, d, env, depth);
    TameKeys(db, r, NOBODY, o);
    TameMore(db, r, w);
    if d in r.drivers {
      if r.orders[o].notes.claimedOffline {
        ClosedAwayTame(db, r, o, d);
        TameMore(db, SetAway(OffLine(Put(r, o, r.orders[o].(status := Cancelled)), d), d), w);
      } else {
        PassedOnTame(db, r, o, d, env, depth);
      }
    }
  }

  lemma ClosedAwayTame(db: Db, r: Db, o: OrderId, d: DriverId)
    requires Tame(db, r, NOBODY) && o in r.orders && d in r.drivers
    ensures Tame(db, SetAway(OffLine(Put(r, o, r.orders[o].(status := Cancelled)), d), d), NOBODY)
  {
    hide Tame, Sane, SetAway, OffLine, RowTame, RowSane;
    var closed := Put(r, o, r.orders[o].(status := Cancelled));
    TameSane(db, r, NOBODY);
    CancelledRow(r, o);
    ThenRewrite(db, r, closed, o, r.orders[o].(status := Cancelled), NOBODY);
    OffLineOrders(closed, d);
    OffLineOrders(OffLine(closed, d), d);
    ThenAlike(db, closed, SetAway(OffLine(closed, d), d), NOBODY);
  }

  lemma PassedOnTame(db: Db, r: Db, o: OrderId, d: DriverId, env: Env, depth: nat)
    requires Tame(db, r, LooseOnes({o})) && o in db.orders && !Closed(db.orders[o].status) && o in r.orders
    requires d in r.drivers
    ensures var again := Put(SetAway(r, d), o, r.orders[o].(driver := None, status := Searching));
      Tame(db, ThenAway(ThenPromote(OfferToNextDriver(again, o, {}, None, env, depth), env, depth), d).db,
          LooseOnes({o}))
  {
    hide Tame, Sane, SetAway, OfferToNextDriver, ThenPromote, ThenAway;
    var row := r.orders[o].(driver := None, status := Searching);
    var again := Put(SetAway(r, d), o, row);
    OffLineOrders(r, d);
    PassedSlot(db, r, again, o, row);
    ThenOffer(db, again, o, {}, None, env, depth, LooseOnes({o}));
    ThenAwayTame(db, ThenPromote(OfferToNextDriver(again, o, {}, None, env, depth), env, depth), d, LooseOnes({o}));
  }

  // Order o looks for another driver; its card, if it got one meanwhile, stays.
  lemma PassedSlot(db: Db, r: Db, again: Db, o: OrderId, row: Order)
    requires Tame(db, r, LooseOnes({o})) && o in db.orders && !Closed(db.orders[o].status) && Rewrites(r, again, o, row)
    requires row == r.orders[o].(driver := None, status := Searching)
    ensures Tame(db, again, LooseOnes({o}))
  {
    forall k ensures OrderTame(db, again, LooseOnes({o}), k) { assert OrderTame(db, r, LooseOnes({o}), k); }
  }

  // The ride a broken car passes on to somebody else.
  function PassedRide(db: Db, d: DriverId): set<OrderId>
  {
    if RideOf(db, d).Some? && !db.orders[RideOf(db, d).value].notes.claimedOffline then {RideOf(db, d).value} else {}
  }

  lemma DriverCancelTame(db: Db, d: DriverId, why: DriverReason, env: Env, depth: nat)
    requires Sane(db)
    ensures Tame(db, DriverCancel(db, d, why, env, depth).db,
        LooseOnes(if why == CarBroken then PassedRide(db, d) else {}))
  {
    hide Tame, Sane, RideOf, ReservationOf, ReleaseRouteOffers;
    hide CarFailure, Handoff.Promote, StepAside, LeftIfTemporary, ThenAway;
    hide TryPromote, RowTame, RowSane;
    AlikeTame(db, db, LooseOnes(if why == CarBroken then PassedRide(db, d) else {}));
    AlikeTame(db, db, NOBODY);
    if RideOf(db, d).Some? && d in db.drivers {
      var o := RideOf(db, d).value;
      ReleaseTame(db, db, o, env, depth);
      var r := ReleaseRouteOffers(db, o, env, depth).db;
      TameMore(db, r, LooseOnes(if why == CarBroken then PassedRide(db, d) else {}));
      if d in r.drivers {
        CarFailureTame(db, r, o, d, env, depth);
        GivenUpTame(db, r, o, d, env, depth);
      }
    }
  }

  lemma GivenUpTame(db: Db, r: Db, o: OrderId, d: DriverId, env: Env, depth: nat)
    requires Tame(db, r, NOBODY) && o in r.orders && d in r.drivers
    ensures var row := r.orders[o].(status := Cancelled); var c := Put(r, o, row);
      && Tame(db, Handoff.Promote(LeftIfTemporary(c, d, row), d, env), NOBODY)
      && Tame(db, ThenAway(TryPromote(StepAside(c, d, row), env, depth), d).db, NOBODY)
  {
    hide Tame, Sane, ReservationOf, Handoff.Promote, StepAside, LeftIfTemporary, ThenAway, TryPromote, RowTame, RowSane;
    var row := r.orders[o].(status := Cancelled);
    var c := Put(r, o, row);
    TameSane(db, r, NOBODY);
    CancelledRow(r, o);
    ThenRewrite(db, r, c, o, row, NOBODY);
    AsideAlike(c, d, row);
    ThenAlike(db, c, LeftIfTemporary(c, d, row), NOBODY);
    PromotedTame(db, LeftIfTemporary(c, d, row), d, env);
    ThenAlike(db, c, StepAside(c, d, row), NOBODY);
    ThenCheck(db, StepAside(c, d, row), env, depth, NOBODY);
    ThenAwayTame(db, TryPromote(StepAside(c, d, row), env, depth), d, NOBODY);
  }

  lemma AsideAlike(db: Db, d: DriverId, row: Order)
    requires d in db.drivers
    ensures Alike(db, LeftIfTemporary(db, d, row)) && Alike(db, StepAside(db, d, row))
  {
  }

  lemma RefuseRideTame(db: Db, o: OrderId, fromChat: bool, env: Env, depth: nat)
    requires Sane(db)
    ensures Tame(db, RefuseRide(db, o, fromChat, env, depth).db, NOBODY)
  {
    hide Tame, Sane, TryPromote, OffLine, RestorePosition, ReturnToQueue, RowTame, RowSane;
    AlikeTame(db, db, NOBODY);
    if o in db.orders {
      var row := db.orders[o];
      var closed := Put(db, o, row.(status := Cancelled));
      CancelledRow(db, o);
      RewriteTame(db, closed, o, row.(status := Cancelled), NOBODY);
      if row.driver.Some? && row.driver.value in db.drivers { OffLineOrders(closed, row.driver.value); }
      ThenAlike(db, closed, RefusedRide(db, o, fromChat), NOBODY);
      ThenCheck(db, RefusedRide(db, o, fromChat), env, depth, NOBODY);
    }
  }

  // ---------------------------------------------------------------- passengers

  lemma AddedTame(db: Db, request: Request)
    requires Sane(db)
    ensures Tame(db, AddOrder(db, request), NOBODY) && db.nextOrder !in db.orders
  {
    forall o ensures OrderTame(db, AddOrder(db, request), NOBODY, o) { }
  }

  lemma CreateOrderTame(db: Db, request: Request, env: Env, depth: nat)
    requires Sane(db)
    ensures Tame(db, CreateOrder(db, request, env, depth).db, NOBODY)
  {
    hide Tame, Sane, OfferToNextDriver, Dispatch, Enqueue;
    var o := db.nextOrder;
    var added := AddOrder(db, request.(requested := None));
    AddedTame(db, request.(requested := None));
    EnqueueTame(db, added, o, NOBODY);
    ThenOffer(db, added, o, {}, None, env, depth, NOBODY);
    DispatchTame(db, added, o, env, depth);
  }

  lemma DispatchTame(db: Db, added: Db, o: OrderId, env: Env, depth: nat)
    requires Tame(db, added, NOBODY) && o in added.orders && Pendent(added.orders[o])
    ensures Tame(db, Dispatch(added, o, env, depth).db, NOBODY)
  {
    hide Tame, Sane, OfferToNextDriver, Repair, HasWaiting, ParkAndNotify, Enqueue, RouteCity;
    RepairAlike(added);
    var mid := Repair(added);
    ThenAlike(db, added, mid, NOBODY);
    ThenOffer(db, mid, o, {}, None, env, depth, NOBODY);
    EnqueueTame(db, mid, o, NOBODY);
    TameSane(db, Enqueue(mid, o), NOBODY);
    ParkTame(Enqueue(mid, o), o, env, depth);
    TameThen(db, Enqueue(mid, o), ParkAndNotify(Enqueue(mid, o), o, env, depth).db, NOBODY);
    if RouteCity(added.orders[o]).Some? {
      ThenOffer(db, mid, o, {}, Some(VillageLine(RouteCity(added.orders[o]).value)), env, depth, NOBODY);
    }
  }

  lemma HoldsAlike(db: Db, p: PassengerId, d: DriverId, h: nat)
    ensures h in db.holds ==> Alike(db, DropHold(db, h))
    ensures Alike(db, SelectDriver(db, p, d))
  {
    hide HoldBelow, RideOf, OfferOf;
  }

  lemma SubmitTame(db: Db, h: nat, request: Request, env: Env)
    requires Sane(db)
    ensures Tame(db, SubmitDirect(db, h, request, env), NOBODY)
  {
    hide Tame, Sane, RideOf, OfferOf, PlaceOffer;
    AlikeTame(db, db, NOBODY);
    if h in db.holds {
      HoldsAlike(db, 0, 0, h);
      AlikeTame(db, DropHold(db, h), NOBODY);
      var d := db.holds[h].driver;
      var free := db.(holds := db.holds - {h});
      AlikeTame(db, free, NOBODY);
      TameSane(db, free, NOBODY);
      var added := AddOrder(free, request.(requested := Some(d)));
      AddedTame(free, request.(requested := Some(d)));
      TameThen(db, free, added, NOBODY);
      TameSane(db, added, NOBODY);
      if d in db.queue {
        PlaceTame(added, db.nextOrder, d, env);
        TameThen(db, added, PlaceOffer(added, db.nextOrder, d, env), NOBODY);
      }
    }
  }

  lemma AnswerTame(db: Db, o: OrderId, actual: bool, env: Env, depth: nat)
    requires Sane(db)
    ensures Tame(db, Confirm(db, o, actual, env, depth).db, NOBODY)
    ensures Tame(db, PollTimeout(db, o, env, depth).db, NOBODY)
  {
    hide Tame, Sane, TryPromote, SetPark, PausePrompts;
    AlikeTame(db, db, NOBODY);
    AlikeTame(db, db.(parked := SetPark(db.parked, o, ParkWaiting)), NOBODY);
    if o in db.orders {
      RowOfSane(db, o);
      CloseTame(db, o);
      ThenCheck(db, CloseParked(db, o), env, depth, NOBODY);
      var row := db.orders[o].(notes := db.orders[o].notes.(confirmed := true));
      var noted := Put(db, o, row).(parked := SetPark(PausePrompts(db.parked, Some(o)), o, ParkWaiting));
      RewriteTame(db, noted, o, row, NOBODY);
      ThenCheck(db, noted, env, depth, NOBODY);
    }
  }

  lemma CloseTame(db: Db, o: OrderId)
    requires Sane(db) && o in db.orders
    ensures Tame(db, CloseParked(db, o), NOBODY)
  {
    hide Tame, Sane;
    RowOfSane(db, o);
    RewriteTame(db, CloseParked(db, o), o, ClearRoute(db.orders[o]).(status := Cancelled), NOBODY);
  }

  lemma LapseTame(db: Db, o: OrderId)
    requires Sane(db)
    ensures Tame(db, DispatcherUnclaimed(db, o), NOBODY) && Tame(db, ChatTimeout(db, o), NOBODY)
  {
    hide Tame, Sane, CloseParked, WithdrawOffer, RowTame, RowSane;
    AlikeTame(db, db, NOBODY);
    if o in db.orders {
      CloseTame(db, o);
      StillThere(db, o);
      WithdrawTame(db, CloseParked(db, o), o);
      CancelledRow(db, o);
      RewriteTame(db, Put(db, o, db.orders[o].(status := Cancelled)), o, db.orders[o].(status := Cancelled), NOBODY);
    }
  }

  lemma StillThere(db: Db, o: OrderId)
    requires o in db.orders
    ensures o in CloseParked(db, o).orders && Closed(CloseParked(db, o).orders[o].status)
  {
  }

  lemma AddressTame(db: Db, o: OrderId, route: Route, env: Env, depth: nat)
    requires Sane(db)
    ensures Tame(db, UpdateAddress(db, o, route, env, depth).db, AddressOf(o))
  {
    hide Tame, Sane, OfferToNextDriver;
    AlikeTame(db, db, AddressOf(o));
    if o in db.orders {
      RowOfSane(db, o);
      var again := Put(db, o, Readdressed(db.orders[o], route)).(parked := Unpark(db.parked, o));
      RewriteTame(db, again, o, Readdressed(db.orders[o], route), AddressOf(o));
      ThenOffer(db, again, o, {}, None, env, depth, AddressOf(o));
    }
  }

  // ---------------------------------------------------------------- the line

  lemma OnlineTame(db: Db, d: DriverId, line: Line, env: Env, depth: nat)
    requires Sane(db)
    ensures Tame(db, GoOnline(db, d, env, depth).db, NOBODY)
    ensures Tame(db, SetLine(db, d, line, env, depth).db, NOBODY)
    ensures Tame(db, StayLine(db, d, env, depth).db, NOBODY)
  {
    hide Tame, Sane, TryPromote, RideOf, OfferOf, Join;
    AlikeTame(db, db, NOBODY);
    if MenuOpen(db, d) {
      OffLineOrders(db, d);
      forall back ensures Tame(db, TryPromote(OnLineNow(Join(db, d, back), d), env, depth).db, NOBODY) {
        AlikeTame(db, OnLineNow(Join(db, d, back), d), NOBODY);
        ThenCheck(db, OnLineNow(Join(db, d, back), d), env, depth, NOBODY);
      }
      var there := WithLine(OnLineNow(Join(db, d, Some(line)), d), d, line);
      AlikeTame(db, there, NOBODY);
      ThenCheck(db, there, env, depth, NOBODY);
      AlikeTame(db, OnLineNow(db, d), NOBODY);
      ThenCheck(db, OnLineNow(db, d), env, depth, NOBODY);
    }
  }

  lemma GoneAlike(db: Db, d: DriverId, away: bool)
    requires d in db.drivers
    ensures Alike(db, Gone(db, d, away)) && Alike(db, OffLine(db, d))
  {
  }

  lemma LeavingTame(db: Db, d: DriverId, away: bool, env: Env, depth: nat)
    requires Sane(db)
    ensures Tame(db, LeaveLine(db, d), NOBODY) && Tame(db, AwayExpire(db, d), NOBODY)
    ensures Tame(db, StepOut(db, d, away, env, depth).db, NOBODY)
  {
    hide Tame, Sane, OffLine, RideOf, OfferOf, TryPromote, HoldBelow, DropHold, Gone, OfferToNextDriver;
    AlikeTame(db, db, NOBODY);
    if d in db.drivers {
      GoneAlike(db, d, away);
      AlikeTame(db, OffLine(db, d), NOBODY);
      AlikeTame(db, Gone(db, d, away), NOBODY);
      var h := HoldBelow(db.holds, None, Some(d), db.nextHold);
      if h.Some? {
        HoldsAlike(db, 0, d, h.value);
        AlikeTame(db, DropHold(db, h.value), NOBODY);
        ThenCheck(db, DropHold(db, h.value), env, depth, NOBODY);
        var r := TryPromote(DropHold(db, h.value), env, depth).db;
        if d in r.drivers { HandedOnTame(db, r, d, away, env, depth); }
      }
    }
  }

  // What a driver stepping out leaves behind.
  lemma HandedOnTame(db: Db, r: Db, d: DriverId, away: bool, env: Env, depth: nat)
    requires Tame(db, r, NOBODY) && d in r.drivers
    ensures Tame(db, Gone(r, d, away), NOBODY)
    ensures OfferOf(r, d).Some? ==>
              var p := OfferOf(r, d).value;
              var row := WithRefusal(r.orders[p], d, false).(offered := None);
              && p in Put(Gone(r, d, away), p, row).orders
              && Tame(db, Put(Gone(r, d, away), p, row.(status := Cancelled)), NOBODY)
              && (row.request.requested.None? ==>
                    Tame(db, OfferToNextDriver(Put(Gone(r, d, away), p, row), p, {}, None, env, depth).db, NOBODY))
  {
    hide Tame, Sane, Gone, OfferToNextDriver, OfferBelow;
    GoneAlike(r, d, away);
    ThenAlike(db, r, Gone(r, d, away), NOBODY);
    if OfferOf(r, d).Some? {
      var p := OfferOf(r, d).value;
      TameSane(db, r, NOBODY);
      RowOfSane(r, p);
      var row := WithRefusal(r.orders[p], d, false).(offered := None);
      ThenRewrite(db, r, Put(Gone(r, d, away), p, row.(status := Cancelled)), p, row.(status := Cancelled), NOBODY);
      if row.request.requested.None? {
        ThenRewrite(db, r, Put(Gone(r, d, away), p, row), p, row, NOBODY);
        ThenOffer(db, Put(Gone(r, d, away), p, row), p, {}, None, env, depth, NOBODY);
      }
    }
  }

  // ---------------------------------------------------------------- every step

  function Rewritten(ev: Event): Option<OrderId> { if ev.NewAddress? then Some(ev.order) else None }

  // The orders that an event may take out of the hands they are in.
  function Loosened(db: Db, ev: Event): set<OrderId>
  {
    match ev
    case ClaimsFromChat(o, d) => ChatLoosens(db, o, d)
    case DriverCancels(d, CarBroken) => PassedRide(db, d)
    case NewAddress(o, _) => {o}
    case _ => {}
  }

  function WaiverOf(db: Db, ev: Event): Waiver
  {
    if ev.NewAddress? then AddressOf(ev.order) else LooseOnes(Loosened(db, ev))
  }

  lemma WaiverLeaves(db: Db, ev: Event, o: OrderId)
    ensures Leaves(WaiverOf(db, ev), o) == Bound <==> o !in Loosened(db, ev)
    ensures Leaves(WaiverOf(db, ev), o) == Free <==> Rewritten(ev) == Some(o)
  {
    hide ChatOpen, RideOf;
  }

  lemma RequestTame(db: Db, ev: Event, env: Env, depth: nat)
    requires Sane(db) && IsRequest(ev)
    ensures Tame(db, Requesting(db, ev, env, depth).db, WaiverOf(db, ev))
  {
    hide Tame, Sane, CreateOrder, SelectDriver, ReleaseHold, SubmitDirect, Confirm, UpdateAddress;
    match ev
    case NewOrder(request) => CreateOrderTame(db, request, env, depth);
    case Select(p, d) =>
      HoldsAlike(db, p, d, 0);
      AlikeTame(db, SelectDriver(db, p, d), NOBODY);
    case DropSelection(h) => ReleaseHoldTame(db, h, env, depth);
    case Submit(h, request) => SubmitTame(db, h, request, env);
    case Answer(o, actual) => AnswerTame(db, o, actual, env, depth);
    case NewAddress(o, route) => AddressTame(db, o, route, env, depth);
  }

  lemma ReleaseHoldTame(db: Db, h: nat, env: Env, depth: nat)
    requires Sane(db)
    ensures Tame(db, ReleaseHold(db, h, env, depth).db, NOBODY)
  {
    hide Tame, Sane, DropHold, TryPromote;
    AlikeTame(db, db, NOBODY);
    if h in db.holds {
      HoldsAlike(db, 0, 0, h);
      AlikeTame(db, DropHold(db, h), NOBODY);
      ThenCheck(db, DropHold(db, h), env, depth, NOBODY);
    }
  }

  lemma EndingTame(db: Db, ev: Event, env: Env, depth: nat)
    requires Sane(db) && IsCancellation(ev)
    ensures Tame(db, Ending(db, ev, env, depth).db, LooseOnes(Loosened(db, ev)))
  {
    hide Tame, Sane, PassedRide, Complete, PassengerCancel, DispatcherCancel, AdminCancel, DriverCancel, RefuseRide;
    match ev
    case PassengerCancels(o) => PassengerCancelTame(db, o, env, depth);
    case DispatcherCancels(o) => DispatcherCancelTame(db, o, env, depth);
    case AdminCancels(o) => AdminCancelTame(db, o, env, depth);
    case RefusesRide(o, fromChat) => RefuseRideTame(db, o, fromChat, env, depth);
    case DriverCancels(d, why) => DriverCancelTame(db, d, why, env, depth);
    case Completes(d) => CompleteTame(db, d, env, depth);
  }

  lemma ClaimingTame(db: Db, ev: Event, env: Env, depth: nat)
    requires Sane(db) && IsClaim(ev)
    ensures TameOrTaken(db, Claiming(db, ev, env, depth).db, ev.order, ev.driver, Loosened(db, ev))
    ensures ClaimBy(ev, ev.order, ev.driver)
  {
    hide Tame, Taken, Sane, ChatLoosens, Accept, TakePending, TakeFromChat, Reserve;
    match ev
    case Accepts(o, d) => AcceptTame(db, o, d, env, depth);
    case ClaimsPending(o, d) => TakePendingTame(db, o, d, env);
    case ClaimsFromChat(o, d) => TakeFromChatTame(db, o, d, env, depth);
    case ReservesOrder(o, d, card) => ReserveTame(db, o, d, card, env);
  }

  lemma RefusingTame(db: Db, ev: Event, env: Env, depth: nat)
    requires Sane(db) && IsRefusal(ev)
    ensures Tame(db, Refusing(db, ev, env, depth).db, NOBODY)
  {
    hide Tame, Sane, Decline, DeclineReserved, DeclineRoute, AcceptTimeout, Unreachable;
    match ev
    case Declines(o, d, reason) => DeclineTame(db, o, d, reason, env, depth);
    case DeclinesReserved(o, d) => DeclineReservedTame(db, o, d, env, depth);
    case DeclinesCard(o, d) => DeclineRouteTame(db, o, d, env, depth);
    case OfferExpires(o, d) => SilenceTame(db, o, d, env, depth);
    case OfferUndeliverable(o, d) => SilenceTame(db, o, d, env, depth);
  }

  lemma LineTame(db: Db, ev: Event, env: Env, depth: nat)
    requires Sane(db) && IsLine(ev)
    ensures Tame(db, OnTheLine(db, ev, env, depth).db, NOBODY)
  {
    hide Tame, Sane, GoOnline, SetLine, StayLine, LeaveLine, StepOut, AwayExpire;
    match ev
    case GoesOnline(d) => OnlineTame(db, d, Gorno, env, depth);
    case PicksLine(d, line) => OnlineTame(db, d, line, env, depth);
    case StaysOnLine(d) => OnlineTame(db, d, Gorno, env, depth);
    case LeavesLine(d) => LeavingTame(db, d, false, env, depth);
    case StepsOut(d, away) => LeavingTame(db, d, away, env, depth);
    case AwayExpires(d) => LeavingTame(db, d, false, env, depth);
  }

  lemma TimingTame(db: Db, ev: Event, env: Env, depth: nat)
    requires Sane(db)
    ensures Tame(db, Timing(db, ev, env, depth).db, NOBODY)
  {
    hide *;
    TimingIs(db, ev, env, depth);
    if ev.CardExpires? { RouteTimeoutTame(db, ev.order, env, depth); }
    else if ev.TimeUnnamed? { DeclineReservedTame(db, ev.order, 0, env, depth); }
    else if ev.QuestionExpires? { AnswerTame(db, ev.order, true, env, depth); }
    else if ev.DispatcherOrderExpires? { LapseTame(db, ev.order); }
    else if ev.ChatOrderExpires? { LapseTame(db, ev.order); }
    else { PromoteTame(db, env, depth); }
  }

  // How any step of the code, finished or rolled back, may treat the orders.
  ghost predicate Handled(db: Db, db': Db, ev: Event)
  {
    || Tame(db, db', WaiverOf(db, ev))
    || (exists o, d :: ClaimBy(ev, o, d) && Taken(db, db', o, d, Loosened(db, ev)))
  }

  lemma StepHandled(db: Db, ev: Event, env: Env, depth: nat)
    requires Sane(db)
    ensures Handled(db, Step(db, ev, env, depth), ev) && Sane(Step(db, ev, env, depth))
  {
    hide Tame, Taken, Sane, Requesting, Ending, Claiming, Refusing, OnTheRide, OnTheLine, Timing, Loosened;
    AlikeTame(db, db, WaiverOf(db, ev));
    var r := Step(db, ev, env, depth);
    if IsRequest(ev) { RequestTame(db, ev, env, depth); }
    else if IsCancellation(ev) { EndingTame(db, ev, env, depth); }
    else if IsClaim(ev) {
      ClaimingTame(db, ev, env, depth);
      TakenIsSane(db, Claiming(db, ev, env, depth).db, ev.order, ev.driver, Loosened(db, ev));
      if Tame(db, r, NOBODY) { TameMore(db, r, WaiverOf(db, ev)); }
    } else if IsRefusal(ev) {
      RefusingTame(db, ev, env, depth);
      TameMore(db, Refusing(db, ev, env, depth).db, WaiverOf(db, ev));
    } else if IsRiding(ev) { RideTame(db, ev, env); TameMore(db, OnTheRide(db, ev, env), WaiverOf(db, ev)); }
    else if IsLine(ev) {
      LineTame(db, ev, env, depth);
      TameMore(db, OnTheLine(db, ev, env, depth).db, WaiverOf(db, ev));
    } else { TimingTame(db, ev, env, depth); TameMore(db, Timing(db, ev, env, depth).db, WaiverOf(db, ev)); }
    if Tame(db, r, WaiverOf(db, ev)) { TameSane(db, r, WaiverOf(db, ev)); }
  }

  // ---------------------------------------------------------------- what a step does to one order

  // The owner of an order changes in one step only from nobody to a claimant, or
  // from somebody to nobody.
  lemma OwnerStep(db: Db, ev: Event, env: Env, depth: nat, o: OrderId)
    requires Sane(db) && o in db.orders
    ensures var r := Step(db, ev, env, depth);
      && o in r.orders
      && (db.orders[o].driver.Some? ==> r.orders[o].driver == db.orders[o].driver || r.orders[o].driver.None?)
      && (db.orders[o].driver.None? && r.orders[o].driver.Some? ==> ClaimBy(ev, o, r.orders[o].driver.value))
  {
    hide Tame, Sane, Step, ClaimBy;
    StepHandled(db, ev, env, depth);
    var r := Step(db, ev, env, depth);
    WaiverLeaves(db, ev, o);
    if Tame(db, r, WaiverOf(db, ev)) {
      TameKeys(db, r, WaiverOf(db, ev), o);
    } else {
      var x, d :| ClaimBy(ev, x, d) && Taken(db, r, x, d, Loosened(db, ev));
      TakenKeys(db, r, x, d, Loosened(db, ev), o);
    }
  }

  // Suppression of automatic offers for a trip is never lifted and refusals are
  // never forgotten. The request, the fallback flag, the exclusions from automatic
  // offers and the end of the order stand until a new address.
  lemma ForEverStep(db: Db, ev: Event, env: Env, depth: nat, o: OrderId)
    requires Sane(db) && o in db.orders
    ensures var r := Step(db, ev, env, depth); var a := db.orders[o];
      && o in r.orders
      && (a.notes.autoOffersDisabled ==> r.orders[o].notes.autoOffersDisabled)
      && a.notes.declined <= r.orders[o].notes.declined
      && (Rewritten(ev) != Some(o) ==>
            && r.orders[o].request == a.request && (a.fallback ==> r.orders[o].fallback)
            && a.notes.autoExcluded <= r.orders[o].notes.autoExcluded
            && (Closed(a.status) ==> Closed(r.orders[o].status)))
  {
    hide Tame, Sane, Step;
    StepHandled(db, ev, env, depth);
    var r := Step(db, ev, env, depth);
    WaiverLeaves(db, ev, o);
    if Tame(db, r, WaiverOf(db, ev)) {
      TameKeys(db, r, WaiverOf(db, ev), o);
    } else {
      var x, d :| ClaimBy(ev, x, d) && Taken(db, r, x, d, Loosened(db, ev));
      TakenKeys(db, r, x, d, Loosened(db, ev), o);
    }
  }

  // A personal request stays in the hands of the driver it was made to, unless its
  // own address is rewritten, its driver's car breaks down on the ride, he claims
  // another order from the chat, or somebody claims this one there.
  lemma HandsStep(db: Db, ev: Event, env: Env, depth: nat, o: OrderId)
    requires Sane(db) && o in db.orders && InHands(db.orders[o]) && o !in Loosened(db, ev)
    ensures var r := Step(db, ev, env, depth); o in r.orders && InHands(r.orders[o])
  {
    hide Tame, Sane, Step, Loosened, ClaimBy;
    StepHandled(db, ev, env, depth);
    var r := Step(db, ev, env, depth);
    WaiverLeaves(db, ev, o);
    if Tame(db, r, WaiverOf(db, ev)) {
      TameKeys(db, r, WaiverOf(db, ev), o);
    } else {
      var x, d :| ClaimBy(ev, x, d) && Taken(db, r, x, d, Loosened(db, ev));
      TakenKeys(db, r, x, d, Loosened(db, ev), o);
      if o == x { OwnedInHands(db.orders[o], d); }
    }
  }

  lemma OwnedInHands(row: Order, d: DriverId)
    requires InHands(row) && !Closed(row.status) && (row.driver.Some? ==> row.driver == Some(d))
    ensures forall offline :: InHands(OwnedRow(row, d, offline))
  {
  }

  // A step gives no order a new card for a trip that is suppressed.
  lemma CardStep(db: Db, ev: Event, env: Env, depth: nat, trip: OrderId, o: OrderId)
    requires Sane(db) && trip in db.orders && db.orders[trip].notes.autoOffersDisabled
    requires o in Step(db, ev, env, depth).orders && Step(db, ev, env, depth).orders[o].slot.trip == Some(trip)
    ensures o in db.orders && db.orders[o].slot == Step(db, ev, env, depth).orders[o].slot
  {
    hide Sane, Step, ClaimBy;
    StepHandled(db, ev, env, depth);
    var r := Step(db, ev, env, depth);
    if Tame(db, r, WaiverOf(db, ev)) {
      assert OrderTame(db, r, WaiverOf(db, ev), o);
    } else {
      var x, d :| ClaimBy(ev, x, d) && Taken(db, r, x, d, Loosened(db, ev));
      TakenCard(db, r, x, d, Loosened(db, ev), o);
    }
  }

  // ---------------------------------------------------------------- runs

  lemma {:induction false} RunSane(db: Db, turns: seq<Turn>, n: nat)
    requires Sane(db) && n <= |turns|
    ensures Sane(After(db, turns, n))
    decreases n
  {
    hide Sane, Step, Handled;
    if n > 0 {
      RunSane(db, turns, n - 1);
      StepHandled(After(db, turns, n - 1), turns[n - 1].ev, turns[n - 1].env, turns[n - 1].depth);
    }
  }

  lemma {:induction false} OrdersStay(db: Db, turns: seq<Turn>, i: nat, j: nat, o: OrderId)
    requires Sane(db) && i <= j <= |turns| && o in After(db, turns, i).orders
    ensures o in After(db, turns, j).orders
    decreases j
  {
    hide Sane, Step, ClaimBy;
    if i < j {
      OrdersStay(db, turns, i, j - 1, o);
      RunSane(db, turns, j - 1);
      OwnerStep(After(db, turns, j - 1), turns[j - 1].ev, turns[j - 1].env, turns[j - 1].depth, o);
    }
  }

  // Nobody steals an order: between two different owners it belongs to nobody.
  lemma {:induction false} NoStealing(db: Db, turns: seq<Turn>, i: nat, j: nat, o: OrderId, d: DriverId, e: DriverId)
    requires Sane(db) && i <= j <= |turns|
    requires o in After(db, turns, i).orders && After(db, turns, i).orders[o].driver == Some(d)
    requires o in After(db, turns, j).orders && After(db, turns, j).orders[o].driver == Some(e)
    requires d != e
    ensures exists k :: i < k < j && o in After(db, turns, k).orders && After(db, turns, k).orders[o].driver.None?
    decreases j
  {
    hide Sane, Step, ClaimBy;
    assert i < j;
    OrdersStay(db, turns, i, j - 1, o);
    RunSane(db, turns, j - 1);
    OwnerStep(After(db, turns, j - 1), turns[j - 1].ev, turns[j - 1].env, turns[j - 1].depth, o);
    var before := After(db, turns, j - 1).orders[o].driver;
    if before.None? {
      assert i < j - 1;
    } else {
      assert before == Some(e);
      NoStealing(db, turns, i, j - 1, o, d, e);
    }
  }

  // Once order o is in its fallback stage it stays there until the passenger
  // rewrites the address.
  lemma {:induction false} FallbackStays(db: Db, turns: seq<Turn>, i: nat, j: nat, o: OrderId)
    requires Sane(db) && i <= j <= |turns|
    requires o in After(db, turns, i).orders && After(db, turns, i).orders[o].fallback
    requires forall k :: i <= k < j ==> Rewritten(turns[k].ev) != Some(o)
    ensures o in After(db, turns, j).orders && After(db, turns, j).orders[o].fallback
    decreases j
  {
    hide Sane, Step, Rewritten;
    if i < j {
      FallbackStays(db, turns, i, j - 1, o);
      RunSane(db, turns, j - 1);
      ForEverStep(After(db, turns, j - 1), turns[j - 1].ev, turns[j - 1].env, turns[j - 1].depth, o);
    }
  }

  lemma {:induction false} SuppressionStays(db: Db, turns: seq<Turn>, i: nat, j: nat, trip: OrderId)
    requires Sane(db) && i <= j <= |turns|
    requires trip in After(db, turns, i).orders && After(db, turns, i).orders[trip].notes.autoOffersDisabled
    ensures trip in After(db, turns, j).orders && After(db, turns, j).orders[trip].notes.autoOffersDisabled
    decreases j
  {
    hide Sane, Step;
    if i < j {
      SuppressionStays(db, turns, i, j - 1, trip);
      RunSane(db, turns, j - 1);
      ForEverStep(After(db, turns, j - 1), turns[j - 1].ev, turns[j - 1].env, turns[j - 1].depth, trip);
    }
  }

  // A trip whose driver once let a card expire is never offered anything again:
  // a card naming it is one it had then already.
  lemma {:induction false} SuppressedForEver(db: Db, turns: seq<Turn>, i: nat, j: nat, trip: OrderId, o: OrderId)
    requires Sane(db) && i <= j <= |turns|
    requires trip in After(db, turns, i).orders && After(db, turns, i).orders[trip].notes.autoOffersDisabled
    requires o in After(db, turns, j).orders && After(db, turns, j).orders[o].slot.trip == Some(trip)
    ensures o in After(db, turns, i).orders && After(db, turns, i).orders[o].slot == After(db, turns, j).orders[o].slot
    decreases j
  {
    hide Sane, Step;
    if i < j {
      SuppressionStays(db, turns, i, j - 1, trip);
      RunSane(db, turns, j - 1);
      CardStep(After(db, turns, j - 1), turns[j - 1].ev, turns[j - 1].env, turns[j - 1].depth, trip, o);
      SuppressedForEver(db, turns, i, j - 1, trip, o);
    }
  }

  // Every state of the great invariant is such a state, the empty table included.
  lemma InvSane(db: Db)
    requires Inv(db)
    ensures Sane(db)
  {
  }
}
