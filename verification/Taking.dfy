// Orders taken without an offer, told in the fields of the tables: from the list of
// pending requests, from the requests chat, and behind a ride.
module Taking {
  import opened Options
  import opened DispatchState
  import opened OrderTable
  import opened DriverLine
  import opened Cascade
  import opened CascadeInv
  import opened CascadeDepth
  import opened Frames
  import opened PassengerQueue
  import opened Transactions
  import opened Trips
  import opened Handoff
  import opened OfferSteps
  import opened ClaimSteps
  import opened RouteSteps
  import opened TripSteps
  import opened TripSafety
  import opened Protocol
  import opened Asking
  import opened Wedging
  import opened Dispatched
  import opened Answers

  // ---------------------------------------------------------------- behind a ride

  // No driver is waiting whom the code would rather send: for a village order anybody
  // on its line, for any other one anybody there who has not declined it.
  ghost predicate NobodyFree(db: Db, o: OrderId, home: Line)
    requires o in db.orders
  {
    if exists v :: StartsIn(db.orders[o], v) then forall x :: !FreeFor(db, x, home) else !Wanted(db, o, home)
  }

  // The order lies on the way of the ride: the ride leads to no village, or to the one
  // the order is collected in and not back again.
  ghost predicate OnWay(ride: Order, row: Order)
  {
    var route := ride.request.route;
    route.destination.None? || (!route.returnIntent && StartsIn(row, route.destination.value))
  }

  // Driver d may put order o behind his ride: nobody has or is offered either it or a
  // second one, and the card he answers, if he answers one, is the live one of this
  // very ride.
  ghost predicate MayFollow(db: Db, o: OrderId, d: DriverId, card: bool, home: Line, ride: OrderId)
    requires o in db.orders
  {
    var row := db.orders[o];
    && d in db.drivers && ride in db.orders && Owns(db.orders[ride], d, Ride) && !HasClaim(db.orders, d, Reservation)
    && row.status in {Created, Queued, NoDrivers} && row.driver.None? && row.reserved.None? && !row.offerCard
    && NobodyFree(db, o, home) && OnWay(db.orders[ride], row)
    && (card ==>
          && row.slot.driver == Some(d) && row.slot.trip == Some(ride)
          && !db.orders[ride].notes.autoOffersDisabled)
  }

  lemma PriorityIs(db: Db, o: OrderId, home: Line)
    requires RosterOk(db) && DistinctPositions(db.queue) && o in db.orders && Home(db.orders[o], home)
    ensures FreeDriverHasPriority(db, o) <==>
              db.orders[o].offered.Some? || db.orders[o].offerCard || !NobodyFree(db, o, home)
  {
    hide HasWaiting, RosterOk, DistinctPositions, FreeFor, StageLine, StartsIn;
    HomeIs(db.orders[o], home);
    VillageSome(db.orders[o]);
    WaitingIff(db, home, {});
    WaitingIff(db, home, db.orders[o].notes.declined);
  }

  lemma WayIs(ride: Order, row: Order)
    ensures OnTheWay(ride, row) <==> OnWay(ride, row)
  {
    StartsIs(row);
  }

  // The guards of the reservation, in these terms.
  lemma FollowIs(db: Db, o: OrderId, d: DriverId, card: bool, home: Line)
    requires Inv(db) && o in db.orders && Home(db.orders[o], home)
    ensures RideOf(db, d).Some? ==>
              forall a :: a in db.orders && Owns(db.orders[a], d, Ride) ==> a == RideOf(db, d).value
    ensures (exists ride :: MayFollow(db, o, d, card, home, ride)) <==>
              && MayReserve(db, o, d, card) && !FreeDriverHasPriority(db, o)
              && OnTheWay(db.orders[RideOf(db, d).value], db.orders[o])
    ensures !FreeDriverHasPriority(db, o) ==> AfterPriority(db, o) == Repair(db)
  {
    hide InvDuring, RowOk, OnTheWay, OnWay, NobodyFree, FreeDriverHasPriority;
    hide Home, HasClaim, Repair, RideOf, ReservationOf;
    RideOfIsRide(db, d, None);
    ReservationOfIsReservation(db, d, None);
    InvParts(db, None);
    PriorityIs(db, o, home);
    assert !FreeDriverHasPriority(db, o) ==> !db.orders[o].offerCard && db.orders[o].offered.None?;
    if db.orders[o].status in {Created, Queued, NoDrivers} { NotOfferedRow(db, o); }
    var ride := RideOf(db, d);
    forall a | MayFollow(db, o, d, card, home, a) ensures ride.Some? { HasRide(db, a, d); }
    if ride.Some? {
      SlotsOnRide(db, ride.value, d);
      WayIs(db.orders[ride.value], db.orders[o]);
      RidesNow(db.orders[ride.value], d);
      assert MayFollow(db, o, d, card, home, ride.value) <==>
        MayReserve(db, o, d, card) && !FreeDriverHasPriority(db, o)
        && OnTheWay(db.orders[ride.value], db.orders[o]);
    }
  }

  lemma HasRide(db: Db, a: OrderId, d: DriverId)
    requires a in db.orders && Owns(db.orders[a], d, Ride)
    ensures HasClaim(db.orders, d, Ride)
  {
  }

  lemma NotOfferedRow(db: Db, o: OrderId)
    requires Inv(db) && o in db.orders && db.orders[o].status in {Created, Queued, NoDrivers}
    ensures db.orders[o].offered.None?
  {
    assert RowOk(db.orders[o]);
  }

  lemma RidesNow(row: Order, d: DriverId)
    requires Owns(row, d, Ride)
    ensures Riding(row.status) && row.driver == Some(d)
  {
  }

  lemma ReserveIsStep(db: Db, o: OrderId, d: DriverId, card: bool, env: Env, depth: nat)
    ensures Step(db, ReservesOrder(o, d, card), env, depth) == Reserve(db, o, d, card, env).db
  {
    hide Requesting, Ending, Refusing, OnTheRide, OnTheLine, Timing, TakeAside, MayReserve, FreeDriverHasPriority;
    hide OnTheWay, AfterPriority;
  }

  // A reservation is made exactly if he had it or may have it; it takes the order out of
  // the passenger queue, closes its card and shows him its menu. Otherwise no order and
  // no driver changes.
  lemma ReserveIff(db: Db, o: OrderId, d: DriverId, card: bool, home: Line, env: Env, depth: nat)
    requires Inv(db) && o in db.orders && Home(db.orders[o], home)
    ensures var r := Step(db, ReservesOrder(o, d, card), env, depth);
      && (o in r.orders && Owns(r.orders[o], d, Reservation) <==>
            Owns(db.orders[o], d, Reservation) || exists ride :: MayFollow(db, o, d, card, home, ride))
      && if exists ride :: MayFollow(db, o, d, card, home, ride) then
           && r.orders == db.orders[o := db.orders[o].(
                status := ParallelAssigned, driver := Some(d), reserved := Some(d), slot := NO_ROUTE_OFFER,
                offerCard := o in env.cards)]
           && r.drivers == db.drivers[d := db.drivers[d].(status := Busy)] && !IsParked(r.parked, o)
         else r.orders == db.orders && r.drivers == db.drivers && r.parked == db.parked
  {
    hide InvDuring, MayReserve, MayFollow, OnTheWay, FreeDriverHasPriority, Home;
    hide Repair, IsParked, Unpark, Attempt, Step;
    FollowIs(db, o, d, card, home);
    ReserveIsStep(db, o, d, card, env, depth);
    RepairFrame(db);
    UnparkGone(db.parked, o);
    AfterIs(db, o);
    if exists ride :: MayFollow(db, o, d, card, home, ride) {
      MayFollowOpen(db, o, d, card, home);
    }
  }

  lemma MayFollowOpen(db: Db, o: OrderId, d: DriverId, card: bool, home: Line)
    requires o in db.orders && exists ride :: MayFollow(db, o, d, card, home, ride)
    ensures d in db.drivers
  {
  }

  lemma AfterIs(db: Db, o: OrderId)
    requires o in db.orders
    ensures var r := AfterPriority(db, o); r.orders == db.orders && r.drivers == db.drivers && r.parked == db.parked
  {
  }

  lemma {:induction false} UnparkGone(parked: seq<Parked>, o: OrderId)
    ensures !IsParked(Unpark(parked, o), o)
  {
    if parked != [] { UnparkGone(parked[1..], o); }
  }

  // A live card is always taken when nobody waits in the village, its driver has
  // reserved nothing else and no offer card of the order lies open.
  lemma CardTaken(db: Db, o: OrderId, d: DriverId, v: Village, env: Env, depth: nat)
    requires Inv(db) && o in db.orders && db.orders[o].slot.driver == Some(d) && StartsIn(db.orders[o], v)
    ensures var r := Step(db, ReservesOrder(o, d, true), env, depth);
      o in r.orders && Owns(r.orders[o], d, Reservation) <==>
        && (forall x :: !FreeFor(db, x, VillageLine(v))) && !HasClaim(db.orders, d, Reservation)
        && !db.orders[o].offerCard
  {
    hide InvDuring, RowOk, FreeFor, HasClaim, Step, Attempt, GoodTrip;
    CardTrip(db, o, d);
    SlotUnassigned(db, o);
    var ride := db.orders[o].slot.trip.value;
    CardRow(db, o, d, v);
    RiderKnown(db, ride, d);
    ReserveIff(db, o, d, true, VillageLine(v), env, depth);
    SlotsOnRide(db, ride, d);
    assert MayFollow(db, o, d, true, VillageLine(v), ride) <==>
      (forall x :: !FreeFor(db, x, VillageLine(v))) && !HasClaim(db.orders, d, Reservation) && !db.orders[o].offerCard;
  }

  lemma CardRow(db: Db, o: OrderId, d: DriverId, v: Village)
    requires Inv(db) && o in db.orders && db.orders[o].slot.driver == Some(d) && StartsIn(db.orders[o], v)
    ensures Home(db.orders[o], VillageLine(v)) && !Owns(db.orders[o], d, Reservation)
    ensures db.orders[o].slot.trip.Some? && db.orders[o].slot.trip.value in db.orders
    ensures OnWay(db.orders[db.orders[o].slot.trip.value], db.orders[o])
    ensures !db.orders[db.orders[o].slot.trip.value].notes.autoOffersDisabled
  {
    CardTrip(db, o, d);
    assert RowOk(db.orders[o]);
    StartsIs(db.orders[o]);
  }

  // ---------------------------------------------------------------- from the lists

  // Driver d may take order o from the list of pending requests: he has neither a ride
  // nor an offer, may work, has an active line of his own, and nobody has the order or
  // is looking at it.
  ghost predicate MayClaim(db: Db, o: OrderId, d: DriverId)
  {
    && o in db.orders && d in db.drivers && !HasClaim(db.orders, d, Ride)
    && (forall a :: a in db.orders ==> !(db.orders[a].status == Searching && db.orders[a].offered == Some(d)))
    && var him, row := db.drivers[d], db.orders[o];
    && !him.suspended && him.carReady && him.currentLine.Some? && him.currentLine.value in db.lines
    && row.status in {Created, Queued, NoDrivers, Searching, ChatSearch}
    && row.driver.None? && row.reserved.None? && row.offered.None?
  }

  // The claimed row: his ride, with its menu or waiting for a price, its card closed.
  function Taken(row: Order, o: OrderId, d: DriverId, offline: bool, env: Env): (r: Order)
    ensures Owns(r, d, Ride) && r.request == row.request
  {
    row.(status := Assigned, driver := Some(d), offered := None, reserved := None, slot := NO_ROUTE_OFFER,
         offerCard := if env.etaMenu then o in env.cards else row.offerCard,
         notes := row.notes.(claimedOffline := offline))
  }

  lemma ClaimIsOpen(db: Db, o: OrderId, d: DriverId)
    requires Inv(db)
    ensures PendingOpen(db, o, d) <==> MayClaim(db, o, d)
  {
    hide InvDuring, RideOf, OfferOf, HasClaim;
    RideOfIsRide(db, d, None);
    OfferOfIsOffer(db, d);
    UnofferedIs(db, d);
  }

  lemma UnofferedIs(db: Db, d: DriverId)
    ensures OfferedTo(db, d) <==>
              !forall a :: a in db.orders ==> !(db.orders[a].status == Searching && db.orders[a].offered == Some(d))
  {
    if !OfferedTo(db, d) {
      forall a | a in db.orders ensures !(db.orders[a].status == Searching && db.orders[a].offered == Some(d)) {
        assert !LiveOffer(db.orders, a, d);
      }
    } else {
      var a :| a in db.orders && LiveOffer(db.orders, a, d);
    }
  }

  lemma ClaimsAre(db: Db, o: OrderId, d: DriverId, env: Env, depth: nat)
    ensures Step(db, ClaimsPending(o, d), env, depth) == TakePending(db, o, d, env).db
    ensures TakeFromChat(db, o, d, env, depth).Done?
    ensures Step(db, ClaimsFromChat(o, d), env, depth) == TakeFromChat(db, o, d, env, depth).db
  {
    hide Requesting, Ending, Refusing, OnTheRide, OnTheLine, Timing, TakeOver, PendingOpen, ChatOpen, BroughtIn;
    hide OfferToNextDriver, Readied, ReleaseOffer, OffTheLine, OfferOf;
  }

  // Exactly then it becomes his ride, out of the passenger queue; he is on the line and
  // busy, at the tail of his line if he was not on it. Otherwise nothing changes.
  lemma ClaimDoes(db: Db, o: OrderId, d: DriverId, env: Env, depth: nat)
    requires Inv(db)
    ensures var r := Step(db, ClaimsPending(o, d), env, depth);
      if !MayClaim(db, o, d) then r == db
      else
        && r.orders == db.orders[o := Taken(db.orders[o], o, d, false, env)] && !IsParked(r.parked, o)
        && r.drivers == db.drivers[d := db.drivers[d].(status := Busy, onLine := true)]
        && (db.drivers[d].status in {Offline, Away} || !db.drivers[d].onLine ==>
              Tailed(db, r, d, db.drivers[d].currentLine))
  {
    hide InvDuring, PendingOpen, MayClaim, Step, Attempt, IsParked, Unpark, MaxPosition;
    ClaimsAre(db, o, d, env, depth);
    ClaimIsOpen(db, o, d);
    UnparkGone(db.parked, o);
    if MayClaim(db, o, d) {
      MayClaimParts(db, o, d);
      TailIs(db, d, db.drivers[d].currentLine);
      TakeOverIs(db, o, d, false, env);
      BroughtTaken(db, o, d, db.drivers[d].currentLine, false, env);
    }
  }

  lemma MayClaimParts(db: Db, o: OrderId, d: DriverId)
    requires MayClaim(db, o, d)
    ensures o in db.orders && d in db.drivers
  {
  }

  // At the tail of the line, on a ride.
  ghost predicate Tailed(db: Db, r: Db, d: DriverId, line: Option<Line>)
  {
    && d in r.queue && r.queue[d].status == OnRide && r.queue[d].line == line
    && (forall x :: x in db.queue ==> db.queue[x].position < r.queue[d].position)
  }

  lemma TailIs(db: Db, d: DriverId, line: Option<Line>)
    requires Inv(db) && d in db.drivers
    ensures Tailed(db, MarkAssigned(BroughtIn(db, d, line), d), d, line)
  {
    hide OrdersInv, Seated, ParkedOk, MaxPosition;
    forall x | x in db.queue ensures db.queue[x].position <= MaxPosition(db) { MaxPositionBounds(db, x); }
  }

  lemma TakeOverIs(db: Db, o: OrderId, d: DriverId, offline: bool, env: Env)
    requires o in db.orders && d in db.drivers
    ensures var r := TakeOver(db, o, d, offline, env);
      && r.orders == db.orders[o := Taken(db.orders[o], o, d, offline, env)] && r.parked == Unpark(db.parked, o)
      && r.drivers == db.drivers[d := db.drivers[d].(status := Busy)] && r.queue == MarkAssigned(db, d).queue
  {
    hide Unpark, SetRowStatus;
  }

  lemma BroughtDrivers(db: Db, d: DriverId, line: Option<Line>)
    requires d in db.drivers
    ensures var b := BroughtIn(db, d, line);
      b.orders == db.orders && b.parked == db.parked && d in b.drivers
      && b.drivers == db.drivers[d := db.drivers[d].(status := Online, onLine := true)]
  {
    hide MaxPosition;
    var him := db.drivers[d];
    assert db.drivers[d := him.(status := Online)][d := him.(status := Online, onLine := true)]
        == db.drivers[d := him.(status := Online, onLine := true)];
  }

  lemma BroughtTaken(db: Db, o: OrderId, d: DriverId, line: Option<Line>, offline: bool, env: Env)
    requires o in db.orders && d in db.drivers
    ensures var b := BroughtIn(db, d, line);
      && o in b.orders && d in b.drivers
      && var r := TakeOver(b, o, d, offline, env);
      && r.orders == db.orders[o := Taken(db.orders[o], o, d, offline, env)] && r.parked == Unpark(db.parked, o)
      && r.drivers == db.drivers[d := db.drivers[d].(status := Busy, onLine := true)]
      && r.queue == MarkAssigned(b, d).queue
  {
    hide BroughtIn, TakeOver, MarkAssigned, Unpark;
    BroughtDrivers(db, d, line);
    var b, him := BroughtIn(db, d, line), db.drivers[d];
    TakeOverIs(b, o, d, offline, env);
    assert b.drivers[d] == him.(status := Online, onLine := true);
    assert db.drivers[d := b.drivers[d]][d := him.(status := Busy, onLine := true)]
        == db.drivers[d := him.(status := Busy, onLine := true)];
  }

  // The chat asks less: he has no ride, nobody rides, has reserved or has finished the
  // order. An offer lying before somebody else is no obstacle.
  ghost predicate MayClaimChat(db: Db, o: OrderId, d: DriverId)
  {
    && o in db.orders && d in db.drivers && !HasClaim(db.orders, d, Ride) && db.orders[o].driver.None?
    && db.orders[o].status in {Created, Searching, Queued, NoDrivers, ChatSearch}
  }

  lemma ChatIsOpen(db: Db, o: OrderId, d: DriverId)
    requires Inv(db)
    ensures ChatOpen(db, o, d) <==> MayClaimChat(db, o, d)
  {
    hide InvDuring, RideOf, HasClaim, RowOk;
    RideOfIsRide(db, d, None);
    if ChatOpen(db, o, d) { ChatRideNone(db, o, d); }
  }

  lemma ReadiedTaken(db: Db, o: OrderId, d: DriverId, env: Env)
    requires o in db.orders && d in db.drivers
    ensures var offline := !db.drivers[d].onLine; var r := TakeOver(Readied(db, d), o, d, offline, env);
      && r.orders == db.orders[o := Taken(db.orders[o], o, d, offline, env)] && r.parked == Unpark(db.parked, o)
      && r.drivers == db.drivers[d := db.drivers[d].(status := Busy, onLine := true)]
  {
    hide TakeOver, BroughtIn, MarkAssigned, Unpark;
    var line := db.drivers[d].currentLine;
    BroughtTaken(db, o, d, if line.Some? && line.value in db.lines then line else None, !db.drivers[d].onLine, env);
    TakeOverIs(db, o, d, !db.drivers[d].onLine, env);
  }

  // Exactly then it becomes his ride, marked as taken off the line if he was not on it,
  // and he is on the line and busy. If another order was before him, it is withdrawn
  // from him, and no third order changes.
  lemma ChatDoes(db: Db, o: OrderId, d: DriverId, env: Env, depth: nat)
    requires Inv(db)
    ensures var r := Step(db, ClaimsFromChat(o, d), env, depth);
      if !MayClaimChat(db, o, d) then r == db
      else
        && o in r.orders && r.orders[o] == Taken(db.orders[o], o, d, !db.drivers[d].onLine, env)
        && !IsParked(r.parked, o)
        && r.drivers == db.drivers[d := db.drivers[d].(status := Busy, onLine := true)]
        && (forall a :: a in db.orders && a != o ==>
              && a in r.orders
              && (db.orders[a].offered != Some(d) ==> r.orders[a] == db.orders[a])
              && (db.orders[a].offered == Some(d) ==> r.orders[a].offered != Some(d) && r.orders[a].driver.None?))
  {
    hide InvDuring, ChatOpen, MayClaimChat, Step, Attempt, IsParked, Unpark, TakeOver, Readied, OfferToNextDriver;
    hide ReleaseOffer, HasClaim, Inv, Owns, RowOk;
    ClaimsAre(db, o, d, env, depth);
    ChatIsOpen(db, o, d);
    if ChatOpen(db, o, d) {
      ChatClaimable(db, o, d);
      OfferOfIsOffer(db, d);
      var offer := OfferOf(db, d);
      if offer.Some? && offer != Some(o) {
        ChatOther(db, o, d, offer.value, env, depth);
      } else {
        ReadiedTaken(db, o, d, env);
        UnparkGone(db.parked, o);
        OneOffer(db, o, d);
      }
    }
  }

  lemma ChatClaimable(db: Db, o: OrderId, d: DriverId)
    requires Inv(db) && ChatOpen(db, o, d)
    ensures o in db.orders && d in db.drivers && MayClaimChat(db, o, d)
    ensures db.orders[o].driver.None? && db.orders[o].reserved.None? && !Closed(db.orders[o].status)
  {
    hide InvDuring, HasClaim, RowOk, ChatOpen;
    ChatIsOpen(db, o, d);
    ChatRideNone(db, o, d);
  }

  // No order but this one, or none at all, lies before him.
  lemma OneOffer(db: Db, o: OrderId, d: DriverId)
    requires Inv(db) && (OfferOf(db, d).None? || OfferOf(db, d) == Some(o))
    ensures forall a :: a in db.orders && a != o ==> db.orders[a].offered != Some(d)
  {
    hide InvDuring, RowOk;
    OfferOfIsOffer(db, d);
    forall a | a in db.orders && a != o ensures db.orders[a].offered != Some(d) {
      if db.orders[a].offered == Some(d) {
        OfferedIsSearching(db, a);
        assert OfferedTo(db, d);
        SafetyNetsIdle(db, d, a, o);
      }
    }
  }

  lemma ChatOther(db: Db, o: OrderId, d: DriverId, p: OrderId, env: Env, depth: nat)
    requires Inv(db) && ChatOpen(db, o, d) && OfferOf(db, d) == Some(p) && p != o && LiveOffer(db.orders, p, d)
    requires d in db.drivers && o in db.orders
    ensures var r := TakeFromChat(db, o, d, env, depth).db;
      && o in r.orders && r.orders[o] == Taken(db.orders[o], o, d, !db.drivers[d].onLine, env) && !IsParked(r.parked, o)
      && r.drivers == db.drivers[d := db.drivers[d].(status := Busy, onLine := true)]
      && (forall a :: a in db.orders && a != o ==>
            && a in r.orders
            && (db.orders[a].offered != Some(d) ==> r.orders[a] == db.orders[a])
            && (db.orders[a].offered == Some(d) ==> r.orders[a].offered != Some(d) && r.orders[a].driver.None?))
  {
    hide InvDuring, Lawful, TakeOver, Readied, OfferToNextDriver, Calm, ReleaseOffer, RowOk, RowLaw, HasClaim, IsParked;
    hide Unpark, OfferedTo;
    OfferedIsSearching(db, p);
    ChatClaimable(db, o, d);
    var freed := Put(ReleaseOffer(db, d), p, db.orders[p].(offered := None));
    FreedIs(db, d, p, db.orders[p].(offered := None));
    ReadiedTaken(freed, o, d, env);
    var taken := TakeOver(Readied(freed, d), o, d, !freed.drivers[d].onLine, env);
    TakenKeeps(db, o, d, p, env);
    OfferAlone(taken, p, {}, None, env, depth);
    LawfulRefl(taken);
    OfferSound(taken, taken, p, {}, env, depth);
    var r := OfferToNextDriver(taken, p, {}, None, env, depth).db;
    CalmFrame(taken, r);
    CalmRow(taken, r, p);
    NotParkedUnlessQueued(r, o);
    NotOffered(r, d, None);
    forall a | a in db.orders && a != o
      ensures a in r.orders && (db.orders[a].offered != Some(d) ==> r.orders[a] == db.orders[a])
      ensures db.orders[a].offered == Some(d) ==> r.orders[a].offered != Some(d) && r.orders[a].driver.None?
    {
      if db.orders[a].offered == Some(d) {
        OfferedIsSearching(db, a);
        SafetyNetsIdle(db, d, a, p);
        NoOfferLeft(r, p, d);
      }
    }
  }

  lemma FreedIs(db: Db, d: DriverId, p: OrderId, row: Order)
    requires Inv(db) && p in db.orders && LiveOffer(db.orders, p, d) && d in db.drivers
    ensures var freed := Put(ReleaseOffer(db, d), p, row);
      freed.orders == db.orders[p := row] && freed.drivers == db.drivers && freed.parked == db.parked
  {
    hide RowOk, OrdersInv, RosterOk, ParkedOk, DistinctPositions;
    assert SeatedOffer(db, p, d);
    assert db.drivers[d := db.drivers[d].(status := Online)] == db.drivers;
  }

  lemma TakenKeeps(db: Db, o: OrderId, d: DriverId, p: OrderId, env: Env)
    requires Inv(db) && ChatOpen(db, o, d) && p != o && LiveOffer(db.orders, p, d)
    requires o in db.orders && d in db.drivers
    requires db.orders[o].driver.None? && db.orders[o].reserved.None? && !Closed(db.orders[o].status)
    ensures var freed := Put(ReleaseOffer(db, d), p, db.orders[p].(offered := None));
      && o in freed.orders && d in freed.drivers
      && var taken := TakeOver(Readied(freed, d), o, d, !freed.drivers[d].onLine, env);
      Inv(taken) && Adrift(taken, p)
  {
    hide InvDuring, Lawful, TakeOver, BroughtIn, OfferedTo, HasClaim, OnlyDriver, ReleaseOffer, RowOk, RowLaw;
    var row := db.orders[p].(offered := None);
    var freed := Put(ReleaseOffer(db, d), p, row);
    OfferedIsSearching(db, p);
    WithdrawnClosed(db.orders[p], d, env);
    ReleaseIsLocal(db, d, Dislike);
    OfferFreed(db, p, d, row, ReleaseOffer(db, d), env);
    OfferGone(db, p, d, row, env);
    FreedFrame(db, d, p, row);
    SameOffers(Put(db, p, row), freed, d);
    TakeReady(db, freed, o, d, env);
    var taken := TakeOver(Readied(freed, d), o, d, !freed.drivers[d].onLine, env);
    StillAdrift(freed, taken, o, p);
  }

  lemma NoOfferLeft(db: Db, p: OrderId, d: DriverId)
    requires Inv(db) && p in db.orders && !OfferedTo(db, d)
    ensures db.orders[p].offered != Some(d)
  {
    hide InvDuring, RowOk;
    if db.orders[p].offered == Some(d) { OfferedIsSearching(db, p); }
  }
}
