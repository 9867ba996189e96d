// A broken car, exactly: when the order its driver had reserved comes straight back
// to him as a card for the very trip he is giving up.
module BrokenCar {
  import opened Options
  import opened DispatchState
  import opened OrderTable
  import opened DriverLine
  import opened Cascade
  import opened CascadeInv
  import opened CascadeDepth
  import opened Frames
  import opened PassengerQueue
  import opened Transactions
  import opened Trips
  import opened Handoff
  import opened OfferSteps
  import opened ClaimSteps
  import opened RouteSteps
  import opened TripSteps
  import opened TripSafety
  import opened CancelSafety
  import opened BrokenEnds
  import opened Asking
  import opened Wedging
  import opened Sending

  // ---------------------------------------------------------------- conditions

  // An order without owner, or the one the driver has reserved.
  predicate OpenTo(row: Order, d: DriverId)
  {
    !Closed(row.status) && (row.driver.None? || row.reserved == Some(d))
  }

  // The order could be offered for the trip as it is under way.
  predicate RidesAlong(trip: Order, row: Order, d: DriverId)
  {
    GoodTrip(trip, row) && !row.fallback && d !in row.notes.autoExcluded
  }

  predicate NobodyRidesAlong(db: Db, d: DriverId)
  {
    RideOf(db, d).Some? ==>
      forall x :: x in db.orders && OpenTo(db.orders[x], d) ==>
        !RidesAlong(db.orders[RideOf(db, d).value], db.orders[x], d)
  }

  // The opportunity check that follows the return of the reservation sends the driver
  // a card for the trip.
  predicate CardComesBack(db: Db, d: DriverId, env: Env)
  {
    RideOf(db, d).Some? && ReservationOf(db, d).Some? && CheckSends(Repark(db, ReservationOf(db, d).value), d, env)
  }

  // What has to hold before a car breaks down for the great invariant to survive.
  ghost predicate CarMayBreak(db: Db, d: DriverId, env: Env)
  {
    || ReservationOf(db, d).None? || NobodyRidesAlong(db, d)
    || (NoSlotOf(db.orders, d) && !CardComesBack(db, d, env))
  }

  // ---------------------------------------------------------------- nobody rides along

  lemma NobodyGetsCard(db: Db, d: DriverId, env: Env, depth: nat)
    requires Inv(db) && NobodyRidesAlong(db, d)
    ensures NoCardComesBack(db, d, env, depth)
    ensures RideOf(db, d).Some? ==>
              NoSlotOf(GiveBack(ReleaseRouteOffers(db, RideOf(db, d).value, env, depth).db, d, env, depth).db.orders, d)
  {
    hide InvDuring, Calm, ReservationOf, RideOf, ReleaseRouteOffers, TryPromote;
    hide Repark, RowCalm, NoRouteOn, SlotsOnlyClose, RidesAlong;
    hide OpenTo;
    RideOfIsRide(db, d, None);
    if RideOf(db, d).Some? {
      var o := RideOf(db, d).value;
      var r := ReleaseRouteOffers(db, o, env, depth).db;
      ReleaseKeeps(db, o, env, depth, None);
      RideStands(db, r, o, d);
      NobodyGivenBack(db, r, o, d, env, depth);
    }
  }

  lemma NobodyGivenBack(db: Db, r: Db, o: OrderId, d: DriverId, env: Env, depth: nat)
    requires Inv(db) && NobodyRidesAlong(db, d) && RideOf(db, d) == Some(o) && Owns(db.orders[o], d, Ride)
    requires Inv(r) && Calm(db, r) && o in r.orders && r.orders[o] == db.orders[o]
    ensures NoSlotOf(GiveBack(r, d, env, depth).db.orders, d)
  {
    hide InvDuring, Calm, ReservationOf, RideOf, TryPromote, Repark, OpenTo, SameOffer, RowOk, NobodyRidesAlong;
    ReservationOfIsReservation(r, d, None);
    var g := GiveBack(r, d, env, depth).db;
    var a := ReservationOf(r, d);
    if a.Some? {
      ReparkKeeps(r, a.value, d, None);
      TryPromoteKeeps(Repark(r, a.value), env, depth, None);
      RideStands(Repark(r, a.value), g, o, d);
    }
    forall x | x in g.orders && g.orders[x].slot.driver == Some(d)
      ensures x in db.orders && OpenTo(db.orders[x], d) && SameOffer(db.orders[x], g.orders[x])
    {
      RowPartsOf(g, x, None);
      if a.Some? { WasOpen(db, r, g, x, a.value, d); } else { WasOpenHere(db, r, x, d); }
    }
    NoCardLeft(db, g, o, d);
  }

  lemma NoCardLeft(db: Db, g: Db, o: OrderId, d: DriverId)
    requires Inv(g) && o in db.orders && o in g.orders && g.orders[o] == db.orders[o] && Owns(g.orders[o], d, Ride)
    requires NobodyRidesAlong(db, d) && RideOf(db, d) == Some(o)
    requires forall x :: x in g.orders && g.orders[x].slot.driver == Some(d) ==>
               x in db.orders && OpenTo(db.orders[x], d) && SameOffer(db.orders[x], g.orders[x])
    ensures NoSlotOf(g.orders, d)
  {
    hide InvDuring, OpenTo, SameOffer, RidesAlong, RideOf;
    forall x | x in g.orders ensures g.orders[x].slot.driver != Some(d) {
      if g.orders[x].slot.driver == Some(d) {
        CardTrip(g, x, d);
        SlotsOnRide(g, o, d);
        RowPartsOf(g, x, None);
        StillRides(g.orders[o], db.orders[x], g.orders[x], d);
      }
    }
  }

  lemma RideStands(db: Db, r: Db, o: OrderId, d: DriverId)
    requires Calm(db, r) && o in db.orders && Owns(db.orders[o], d, Ride)
    ensures o in r.orders && r.orders[o] == db.orders[o]
  {
    CalmRow(db, r, o);
  }

  // Between two calm stretches only the reservation is given up.
  lemma WasOpen(db: Db, r: Db, g: Db, x: OrderId, a: OrderId, d: DriverId)
    requires Inv(db) && Calm(db, r) && a in r.orders && Owns(r.orders[a], d, Reservation)
    requires Repark(r, a).orders == r.orders[a := Unreserved(r.orders[a])] && Calm(Repark(r, a), g)
    requires x in g.orders && g.orders[x].slot.driver.Some? && RowOk(g.orders[x])
    ensures x in db.orders && OpenTo(db.orders[x], d) && SameOffer(db.orders[x], g.orders[x])
  {
    hide Calm, Repark, InvDuring, Backed, Exclusive;
    CalmFrame(db, r);
    CalmFrame(Repark(r, a), g);
    CalmRow(db, r, x);
    CalmRow(Repark(r, a), g, x);
    RowPartsOf(db, x, None);
  }

  lemma WasOpenHere(db: Db, r: Db, x: OrderId, d: DriverId)
    requires Inv(db) && Calm(db, r) && x in r.orders && r.orders[x].slot.driver.Some? && RowOk(r.orders[x])
    ensures x in db.orders && OpenTo(db.orders[x], d) && SameOffer(db.orders[x], r.orders[x])
  {
    hide Calm, InvDuring;
    CalmFrame(db, r);
    CalmRow(db, r, x);
    RowPartsOf(db, x, None);
  }

  // What counts for a card has not changed.
  predicate SameOffer(a: Order, b: Order)
  {
    b.request == a.request && b.notes == a.notes && (a.fallback ==> b.fallback)
  }

  lemma StillRides(trip: Order, a: Order, b: Order, d: DriverId)
    requires SameOffer(a, b) && GoodTrip(trip, b) && RowOk(b) && b.slot.driver == Some(d)
    ensures RidesAlong(trip, a, d)
  {
  }

  // ---------------------------------------------------------------- no card before

  lemma NothingReleased(db: Db, o: OrderId, d: DriverId, env: Env, depth: nat)
    requires Inv(db) && NoSlotOf(db.orders, d) && o in db.orders && Owns(db.orders[o], d, Ride)
    ensures ReleaseRouteOffers(db, o, env, depth) == Done(db, false)
  {
    hide InvDuring;
    forall a: OrderId ensures !RoutedOn(db.orders, a, o) {
      if RoutedOn(db.orders, a, o) { CardTrip(db, a, db.orders[a].slot.driver.value); }
    }
    EmptyRouted(db.orders, o, db.nextOrder);
  }

  // The reserved order, parked again.
  lemma Reparked(db: Db, d: DriverId)
    requires Inv(db) && NoSlotOf(db.orders, d) && ReservationOf(db, d).Some?
    ensures NoCards(Repark(db, ReservationOf(db, d).value), d)
  {
    hide InvDuring, ReservationOf, Repark, RowOk;
    var a := ReservationOf(db, d).value;
    ReservationOfIsReservation(db, d, None);
    ReparkKeeps(db, a, d, None);
    RowPartsOf(db, a, None);
    UnreservedRow(db.orders[a], d);
  }

  // Where no card lies with the driver, one comes back if and only if the check sends
  // it, even if the check cannot end.
  lemma ComesBackIff(db: Db, d: DriverId, env: Env, depth: nat)
    requires Inv(db) && NoSlotOf(db.orders, d) && RideOf(db, d).Some?
    ensures var o := RideOf(db, d).value;
      && ReleaseRouteOffers(db, o, env, depth) == Done(db, false)
      && (NoSlotOf(GiveBack(db, d, env, depth).db.orders, d) <==> !CardComesBack(db, d, env))
  {
    hide InvDuring, RideOf, ReservationOf, Repark, TryPromote, ReleaseRouteOffers, NoCards, CheckSends;
    RideOfIsRide(db, d, None);
    NothingReleased(db, RideOf(db, d).value, d, env, depth);
    if ReservationOf(db, d).Some? {
      Reparked(db, d);
      CheckSendsIff(Repark(db, ReservationOf(db, d).value), d, env, depth);
    }
  }

  // What the caller can look up before the car breaks down is enough.
  lemma CarMayBreakSuffices(db: Db, d: DriverId, env: Env, depth: nat)
    requires Inv(db) && CarMayBreak(db, d, env)
    ensures NoCardComesBack(db, d, env, depth)
  {
    hide InvDuring, RideOf, ReservationOf, NobodyRidesAlong, NoSlotOf, CardComesBack, GiveBack, ReleaseRouteOffers;
    if ReservationOf(db, d).None? { NoReservationNoCard(db, d, env, depth); }
    else if NobodyRidesAlong(db, d) { NobodyGetsCard(db, d, env, depth); }
    else if RideOf(db, d).Some? { ComesBackIff(db, d, env, depth); }
  }

  // Where no card lies with the driver, the condition says that none comes back.
  lemma MayBreakIff(db: Db, d: DriverId, env: Env)
    requires Inv(db) && NoSlotOf(db.orders, d)
    ensures CarMayBreak(db, d, env) <==> !CardComesBack(db, d, env)
  {
    hide InvDuring, RideOf, ReservationOf, NobodyRidesAlong, NoSlotOf, GiveBack, ReleaseRouteOffers, Repark, CheckSends;
    if CardComesBack(db, d, env) {
      ComesBackIff(db, d, env, 0);
      if NobodyRidesAlong(db, d) { NobodyGetsCard(db, d, env, 0); }
    }
  }

  // ---------------------------------------------------------------- the broken end

  // Whatever the queue does next, the card stays with a trip that is no ride any
  // more.
  lemma CardStays(db: Db, d: DriverId, env: Env, depth: nat) returns (a: OrderId)
    requires Inv(db) && NoSlotOf(db.orders, d) && CardComesBack(db, d, env) && depth >= 2
    requires DriverCancel(db, d, CarBroken, env, depth).Done?
    ensures RideOf(db, d).Some?
    ensures var r := DriverCancel(db, d, CarBroken, env, depth).db;
      CardOutlives(r, a, RideOf(db, d).value, d) && a in db.orders && !Inv(r)
  {
    hide CardOutlives, InvDuring, RideOf, ReservationOf, ReleaseRouteOffers, CarFailure, GiveBack;
    hide CardComesBack, BadlyBack, NoSlotOf;
    RideNamed(db, d, env);
    var o := RideOf(db, d).value;
    RideOfIsRide(db, d, None);
    RiderKnown(db, o, d);
    ComesBackIff(db, d, env, depth);
    BrokenIs(db, o, d, env, depth);
    a := CardReturns(db, o, d, env, depth);
    BrokenOffBadly(db, o, a, d, env, depth);
    DeadCard(DriverCancel(db, d, CarBroken, env, depth).db, a, o, d);
  }

  lemma BrokenIs(db: Db, o: OrderId, d: DriverId, env: Env, depth: nat)
    requires RideOf(db, d) == Some(o) && d in db.drivers && ReleaseRouteOffers(db, o, env, depth) == Done(db, false)
    ensures o in db.orders
    ensures DriverCancel(db, d, CarBroken, env, depth) == CarFailure(db, o, d, env, depth)
    ensures CarFailure(db, o, d, env, depth).Done? ==> GiveBack(db, d, env, depth).Done?
  {
    hide RideOf, ReleaseRouteOffers, GiveBack;
  }

  // The card, with nobody in reach of its order.
  lemma CardReturns(db: Db, o: OrderId, d: DriverId, env: Env, depth: nat) returns (a: OrderId)
    requires Inv(db) && NoSlotOf(db.orders, d) && CardComesBack(db, d, env) && depth >= 2
    requires RideOf(db, d) == Some(o) && Owns(db.orders[o], d, Ride) && GiveBack(db, d, env, depth).Done?
    ensures BadlyBack(db, GiveBack(db, d, env, depth).db, o, a, d) && a in db.orders
  {
    hide InvDuring, RideOf, ReservationOf, Repark, TryPromote, CheckSends, Resting, Stripped, ReleaseRouteOffers, RowOk;
    var w := Repark(db, ReservationOf(db, d).value);
    Reparked(db, d);
    InvSteady(w, None);
    a := CheckSent(w, d, env, depth);
    BackDuring(db, o, d, env, depth);
    var g := GiveBack(db, d, env, depth).db;
    RestingParts(g, a);
    CardTrip(g, a, d);
    RideParts(db, g, o, d);
    SlotsOnRide(g, o, d);
  }

  lemma RideNamed(db: Db, d: DriverId, env: Env)
    requires CardComesBack(db, d, env)
    ensures RideOf(db, d).Some? && ReservationOf(db, d).Some?
  {
  }

  // The state once the reservation is back, with the ride still standing.
  lemma BackDuring(db: Db, o: OrderId, d: DriverId, env: Env, depth: nat)
    requires Inv(db) && NoSlotOf(db.orders, d) && o in db.orders && Owns(db.orders[o], d, Ride)
    ensures var g := GiveBack(db, d, env, depth).db; Inv(g) && Stripped(db, g, o, d)
  {
    hide InvDuring, Stripped, Released, ReservationOf, Repark, TryPromote;
    NothingReleased(db, o, d, env, depth);
    ReleaseFirstKeeps(db, o, d, env, depth);
    GiveBackStrips(db, db, o, d, env, depth);
    ReservationOfIsReservation(db, d, None);
    if ReservationOf(db, d).Some? {
      var a := ReservationOf(db, d).value;
      ReparkKeeps(db, a, d, None);
      TryPromoteKeeps(Repark(db, a), env, depth, None);
    }
  }

  // Driver d still has the card of order a for trip o, which he is not riding.
  predicate CardOutlives(r: Db, a: OrderId, o: OrderId, d: DriverId)
  {
    a != o && a in r.orders && r.orders[a].slot.driver == Some(d) && r.orders[a].slot.trip == Some(o)
    && (o in r.orders ==> !Owns(r.orders[o], d, Ride))
  }

  lemma DeadCard(r: Db, a: OrderId, o: OrderId, d: DriverId)
    requires CardOutlives(r, a, o, d)
    ensures !Inv(r)
  {
    assert !OnTrip(r.orders, r.orders[a]);
  }

  lemma BrokenOffBadly(db: Db, o: OrderId, a: OrderId, d: DriverId, env: Env, depth: nat)
    requires Inv(db) && o in db.orders && d in db.drivers && depth >= 2
    requires var g := GiveBack(db, d, env, depth); g.Done? && BadlyBack(db, g.db, o, a, d)
    requires CarFailure(db, o, d, env, depth).Done?
    ensures CardOutlives(CarFailure(db, o, d, env, depth).db, a, o, d)
  {
    hide InvDuring, BadlyBack, GiveBack, SetAway, OffLine, OfferToNextDriver, TryPromote;
    var g := GiveBack(db, d, env, depth).db;
    BadlyParts(db, g, o, a, d);
    if g.orders[o].notes.claimedOffline {
      var closed := Put(g, o, g.orders[o].(status := Cancelled));
      OffAwayOrders(closed, d);
    } else {
      PassedBadly(db, g, o, a, d, env, depth);
    }
  }

  // The reservation is back, and a card for the ride lies with the driver.
  ghost predicate BadlyBack(db: Db, g: Db, o: OrderId, a: OrderId, d: DriverId)
  {
    && Inv(g) && Stripped(db, g, o, d) && Resting(g, a)
    && g.orders[a].slot.driver == Some(d) && g.orders[a].slot.trip == Some(o)
  }

  lemma BadlyParts(db: Db, g: Db, o: OrderId, a: OrderId, d: DriverId)
    requires BadlyBack(db, g, o, a, d)
    ensures o in g.orders && d in g.drivers && a in g.orders && a != o
    ensures g.orders[a].slot.driver == Some(d) && g.orders[a].slot.trip == Some(o)
  {
    hide InvDuring;
    CardIsFree(g, a, o, d);
  }

  lemma CardIsFree(g: Db, a: OrderId, o: OrderId, d: DriverId)
    requires Inv(g) && a in g.orders && g.orders[a].slot.driver == Some(d) && o in g.orders
    requires Owns(g.orders[o], d, Ride)
    ensures a != o && Unseen(g.orders[a]) && Candidate(g.orders[a].status)
  {
    assert RowOk(g.orders[a]);
  }

  lemma OffAwayOrders(db: Db, d: DriverId)
    requires d in db.drivers
    ensures SetAway(OffLine(db, d), d).orders == db.orders
  {
  }

  // The ride looks for another driver, the card stays.
  lemma PassedBadly(db: Db, g: Db, o: OrderId, a: OrderId, d: DriverId, env: Env, depth: nat)
    requires Inv(db) && BadlyBack(db, g, o, a, d) && o in g.orders && d in g.drivers && depth >= 2
    ensures var free := Put(SetAway(g, d), o, g.orders[o].(driver := None, status := Searching));
      var f := OfferToNextDriver(free, o, {}, None, env, depth);
      f.Done? ==> CardOutlives(ThenAway(ThenPromote(f, env, depth), d).db, a, o, d)
  {
    hide InvDuring, BadlyBack, SetAway, OfferToNextDriver, TryPromote, Calm, Quiet;
    var row := g.orders[o].(driver := None, status := Searching);
    var free := Put(SetAway(g, d), o, row);
    BadlyParts(db, g, o, a, d);
    FreedDuring(db, g, o, d, free, row) by { BadlyStripped(db, g, o, a, d); }
    var f := OfferToNextDriver(free, o, {}, None, env, depth);
    if f.Done? {
      AdriftOpen(free, o);
      OfferKeeps(free, o, {}, None, env, depth, Some(d));
      KeptCalm(free, f.db, o, Some(d));
      CardRests(db, g, free, o, a, d, env, depth);
      RestingParts(f.db, a);
      CheckLeavesQuiet(f.db, a, env, depth, Some(d));
      TryPromoteKeeps(f.db, env, depth, Some(d));
      var t := TryPromote(f.db, env, depth).db;
      UnownedStays(free, f.db, t, o);
      DeadCardAway(t, a, o, d);
    }
  }

  lemma BadlyStripped(db: Db, g: Db, o: OrderId, a: OrderId, d: DriverId)
    requires BadlyBack(db, g, o, a, d)
    ensures Inv(g) && Stripped(db, g, o, d)
  {
  }

  // Looking for another driver leaves the card's order as quiet as it is.
  lemma CardRests(db: Db, g: Db, free: Db, o: OrderId, a: OrderId, d: DriverId, env: Env, depth: nat)
    requires BadlyBack(db, g, o, a, d) && o in g.orders && d in g.drivers && depth >= 2
    requires free == Put(SetAway(g, d), o, g.orders[o].(driver := None, status := Searching))
    requires InvDuring(free, Some(d)) && Adrift(free, o) && OfferToNextDriver(free, o, {}, None, env, depth).Done?
    ensures var f := OfferToNextDriver(free, o, {}, None, env, depth).db;
      a in f.orders && a in g.orders && f.orders[a] == g.orders[a] && Resting(f, a)
  {
    hide InvDuring, Resting, SetAway, OfferToNextDriver, Ready, FewerWait, Stripped, Moves;
    ReadyOf(free, o, Some(d));
    RosterPart(g, None);
    RosterPart(free, Some(d));
    RideParts(db, g, o, d);
    FreeFewer(g, free, o, d);
    var f := OfferToNextDriver(free, o, {}, None, env, depth).db;
    CascadeFewer(free, o, None, env, depth);
    FewerThen(g, free, f);
    OfferKeeps(free, o, {}, None, env, depth, Some(d));
    SetAwayFrame(g, free, o, d, g.orders[o].(driver := None, status := Searching));
    BadlyParts(db, g, o, a, d);
    CardUntouched(g, free, f, o, a, d);
  }

  lemma RideParts(db: Db, g: Db, o: OrderId, d: DriverId)
    requires Inv(g) && Stripped(db, g, o, d)
    ensures o in g.orders && Owns(g.orders[o], d, Ride)
    ensures g.orders[o].driver == Some(d) && g.orders[o].offered.None? && g.orders[o].reserved.None?
  {
    assert RowOk(g.orders[o]);
  }

  lemma DeadCardAway(t: Db, a: OrderId, o: OrderId, d: DriverId)
    requires a != o && a in t.orders && t.orders[a].slot.driver == Some(d) && t.orders[a].slot.trip == Some(o)
    requires o in t.orders && t.orders[o].driver.None?
    ensures d in t.drivers ==> CardOutlives(SetAway(t, d), a, o, d)
    ensures CardOutlives(t, a, o, d)
  {
  }

  // Dispatch gives no order an owner.
  lemma UnownedStays(a: Db, b: Db, c: Db, o: OrderId)
    requires Calm(a, b) && Calm(b, c) && o in a.orders && a.orders[o].driver.None?
    ensures o in c.orders && c.orders[o].driver.None?
  {
    CalmTrans(a, b, c);
    CalmRow(a, c, o);
  }

  lemma FreedDuring(db: Db, g: Db, o: OrderId, d: DriverId, free: Db, row: Order)
    requires Inv(db) && Stripped(db, g, o, d) && o in g.orders && d in g.drivers
    requires row == g.orders[o].(driver := None, status := Searching)
    requires free == Put(SetAway(g, d), o, row)
    ensures InvDuring(free, Some(d)) && Adrift(free, o)
  {
    hide InvDuring, Lawful, RowOk, RowLaw, OnlyDriver, Stripped, SetAway;
    StrippedParts(db, g, o, d);
    StrippedInv(db, g, o, d);
    AwayLocal(g, d);
    FreedRide(db, o, d);
    RowPartsOf(g, o, Some(d));
    RidingNotQueued(g.orders[o], d);
    ClosedElsewhere(g, o, row);
    FreeRow(g, o, row, g.parked, Some(d));
    var mid := Put(g, o, row);
    assert mid == Put(g, o, row).(parked := g.parked);
    SwapPut(g, SetAway(g, d), o, row, d);
    NotOffered(mid, d, Some(d));
    DriverMoves(mid, free, d, Some(d)) by { AwayStatus(g, free, o, row, d); }
    FreeAdrift(db, g, o, d, SetAway(g, d), row);
  }

  lemma StrippedInv(db: Db, g: Db, o: OrderId, d: DriverId)
    requires Stripped(db, g, o, d)
    ensures InvDuring(g, Some(d))
  {
  }

  lemma AwayStatus(g: Db, free: Db, o: OrderId, row: Order, d: DriverId)
    requires d in g.drivers && free == Put(SetAway(g, d), o, row)
    ensures d in free.drivers && free.drivers[d].status == Away
  {
  }

  lemma SetAwayFrame(g: Db, free: Db, o: OrderId, d: DriverId, row: Order)
    requires d in g.drivers && o in g.orders && free == Put(SetAway(g, d), o, row)
    ensures free.parked == g.parked && free.orders == g.orders[o := row]
  {
  }

  // The card's order rests as before.
  lemma CardUntouched(g: Db, free: Db, f: Db, o: OrderId, a: OrderId, d: DriverId)
    requires Resting(g, a) && a != o && o in free.orders && free.orders == g.orders[o := free.orders[o]]
    requires Moves(free, f, o) && FewerWait(g, f)
    ensures a in f.orders && a in g.orders && f.orders[a] == g.orders[a] && Resting(f, a)
  {
    hide HasWaiting, Resting, FewerWait;
    RestingParts(g, a);
    OthersStand(free, f, o);
    RestsOn(g, f, a);
  }

  // Setting the driver aside and freeing his ride makes nobody wait.
  lemma FreeFewer(g: Db, free: Db, o: OrderId, d: DriverId)
    requires RosterOk(g) && DistinctPositions(g.queue) && RosterOk(free) && DistinctPositions(free.queue)
    requires o in g.orders && d in g.drivers && g.orders[o].driver == Some(d) && g.orders[o].offered.None?
    requires g.orders[o].reserved.None?
    requires free == Put(SetAway(g, d), o, g.orders[o].(driver := None, status := Searching))
    ensures FewerWait(g, free)
  {
    hide FewerWait, DistinctPositions, RosterOk;
    forall e: DriverId | e in free.drivers && free.drivers[e].status == Online && !OfferedTo(free, e)
      ensures SameDriver(g, free, e)
    {
      assert e != d;
      UnseenCommitted(g.orders, free.orders, o, e);
      OthersOffered(g, free, o, e);
    }
    SameOrBusy(g, free);
  }

  // ---------------------------------------------------------------- rolled back

  // The ride, given up, is stuck where it is handed on, or the check after that is
  // wedged.
  predicate HandedOnBadly(g: Db, o: OrderId, d: DriverId, env: Env, depth: nat)
  {
    o in g.orders && d in g.drivers
    && var free := Put(SetAway(g, d), o, g.orders[o].(driver := None, status := Searching));
       Stuck(free, o, env) || Wedged(OfferToNextDriver(free, o, {}, None, env, depth).db, env)
  }

  // The transaction cannot end: not the check that follows the return of the
  // reservation, or not the handing on of the ride.
  predicate BreakdownUndone(db: Db, d: DriverId, env: Env, depth: nat)
  {
    RideOf(db, d).Some? && d in db.drivers
    && ((ReservationOf(db, d).Some? && Wedged(Repark(db, ReservationOf(db, d).value), env))
        || (!db.orders[RideOf(db, d).value].notes.claimedOffline
            && HandedOnBadly(GiveBack(db, d, env, depth).db, RideOf(db, d).value, d, env, depth)))
  }

  lemma BreakdownUndoneIff(db: Db, d: DriverId, env: Env, depth: nat)
    requires Inv(db) && NoSlotOf(db.orders, d) && depth >= 2
    ensures DriverCancel(db, d, CarBroken, env, depth).TooDeep? <==> BreakdownUndone(db, d, env, depth)
  {
    hide InvDuring, RideOf, ReservationOf, ReleaseRouteOffers, CarFailure, GiveBack, Stripped, Wedged, HandedOnBadly;
    hide NoSlotOf, Repark;
    RideOfIsRide(db, d, None);
    if RideOf(db, d).Some? && d in db.drivers {
      var o := RideOf(db, d).value;
      NothingReleased(db, o, d, env, depth);
      BrokenIs(db, o, d, env, depth);
      BackDuring(db, o, d, env, depth);
      BackDeepIff(db, d, env, depth);
      var g := GiveBack(db, d, env, depth);
      if g.Done? { PassingDeepIff(db, o, d, env, depth); }
    }
  }

  lemma BackDeepIff(db: Db, d: DriverId, env: Env, depth: nat)
    requires Inv(db) && depth >= 2
    ensures GiveBack(db, d, env, depth).TooDeep? <==>
      ReservationOf(db, d).Some? && Wedged(Repark(db, ReservationOf(db, d).value), env)
  {
    hide InvDuring, ReservationOf, Repark, TryPromote, Wedged;
    ReservationOfIsReservation(db, d, None);
    if ReservationOf(db, d).Some? {
      var w := Repark(db, ReservationOf(db, d).value);
      ReparkKeeps(db, ReservationOf(db, d).value, d, None);
      InvSteady(w, None);
      CheckDeepIff(w, env, depth);
    }
  }

  lemma PassingDeepIff(db: Db, o: OrderId, d: DriverId, env: Env, depth: nat)
    requires Inv(db) && depth >= 2 && o in db.orders && d in db.drivers
    requires var g := GiveBack(db, d, env, depth); g.Done? && Inv(g.db) && Stripped(db, g.db, o, d)
    ensures CarFailure(db, o, d, env, depth).TooDeep? <==>
      !db.orders[o].notes.claimedOffline && HandedOnBadly(GiveBack(db, d, env, depth).db, o, d, env, depth)
  {
    hide InvDuring, GiveBack, SetAway, OffLine, OfferToNextDriver, TryPromote, Stripped, Stuck, Wedged, Adrift, Moves;
    var g := GiveBack(db, d, env, depth).db;
    StrippedParts(db, g, o, d);
    var row := g.orders[o].(driver := None, status := Searching);
    var free := Put(SetAway(g, d), o, row);
    FreedDuring(db, g, o, d, free, row);
    ReadyOf(free, o, Some(d));
    DeepIff(free, o, {}, None, env, depth);
    AdriftOpen(free, o);
    OfferKeeps(free, o, {}, None, env, depth, Some(d));
    InvSteady(OfferToNextDriver(free, o, {}, None, env, depth).db, Some(d));
    CheckDeepIff(OfferToNextDriver(free, o, {}, None, env, depth).db, env, depth);
  }

  // ---------------------------------------------------------------- an empty line

  predicate NobodyOnline(db: Db)
  {
    forall e :: e in db.drivers ==> db.drivers[e].status != Online
  }

  lemma NobodyWaits(db: Db, line: Line, excluded: set<DriverId>)
    requires NobodyOnline(db)
    ensures !HasWaiting(db, line, excluded)
  {
    hide RepairAll;
    PickFromIsLeast(Repair(db), line, excluded, 0);
  }

  // With nobody online the check never goes round in a circle.
  lemma {:induction false} NobodyWedges(db: Db, waiting: seq<OrderId>, env: Env)
    requires NobodyOnline(db)
    ensures var a := FirstActed(db, waiting, env); a.Some? ==> !Circles(a.value, env)
    decreases |waiting|
  {
    hide Repair, HasWaiting, ServiceHands, PassedOver, Acts, Stuck;
    if waiting != [] {
      if waiting[0] !in db.orders { NobodyWedges(db, waiting[1..], env); }
      else {
        var mid := Repair(db);
        RepairFrame(db);
        NobodyHands(mid, waiting[0], env);
        NobodyWedges(PassedOver(mid, waiting[0], env), waiting[1..], env);
      }
    }
  }

  lemma NobodyHands(db: Db, o: OrderId, env: Env)
    requires NobodyOnline(db) && o in db.orders
    ensures ServiceHands(db, o, env).None? && NobodyOnline(PassedOver(db, o, env))
  {
    hide Repair, HasWaiting, NotifyBusyDrivers, FallbackHands, TripInReach;
    NobodyWaits(db, StageLine(db.orders[o]), {});
    NobodyWaits(db, StageLine(db.orders[o]), db.orders[o].notes.declined);
    NobodyFalls(db, o);
    NotifyDrivers(db, o, env);
    NobodyFalls(NotifyBusyDrivers(db, o, env).db, o);
  }

  lemma NotifyDrivers(db: Db, o: OrderId, env: Env)
    requires o in db.orders
    ensures NotifyBusyDrivers(db, o, env).db.drivers == db.drivers
  {
    hide Repair, HasWaiting, ClaimTrip;
    RepairFrame(db);
  }

  lemma NobodyFalls(db: Db, o: OrderId)
    requires NobodyOnline(db) && o in db.orders
    ensures FallbackHands(db, o).None?
  {
    hide Repair, HasWaiting, Parking;
    var p := Parking(db, o);
    ParkingDrivers(db, o);
    RepairFrame(p);
    if RouteCity(db.orders[o]).Some? { NobodyWaits(p, VillageLine(RouteCity(db.orders[o]).value), {}); }
    NobodyWaits(Put(p, o, p.orders[o].(fallback := true)), Gorno, {});
    NobodyWaits(Put(Repair(p), o, Repair(p).orders[o].(fallback := true)), Gorno, {});
  }

  lemma ParkingDrivers(db: Db, o: OrderId)
    requires o in db.orders
    ensures Parking(db, o).drivers == db.drivers
  {
  }

  // So the broken car's transaction comes to its end.
  lemma BreakdownEnds(db: Db, d: DriverId, env: Env, depth: nat)
    requires Inv(db) && NoSlotOf(db.orders, d) && NobodyOnline(db) && depth >= 2
    ensures !BreakdownUndone(db, d, env, depth)
  {
    hide InvDuring, RideOf, ReservationOf, ReleaseRouteOffers, GiveBack;
    hide Stripped, Wedged, Stuck, SetAway, OfferToNextDriver;
    hide Repark, Adrift, Moves, Calm, NoSlotOf;
    if RideOf(db, d).Some? && d in db.drivers {
      var o := RideOf(db, d).value;
      RideOfIsRide(db, d, None);
      ReservationOfIsReservation(db, d, None);
      if ReservationOf(db, d).Some? {
        ReparkKeeps(db, ReservationOf(db, d).value, d, None);
        NotWedged(Repark(db, ReservationOf(db, d).value), env);
      }
      BackDuring(db, o, d, env, depth);
      var g := GiveBack(db, d, env, depth).db;
      StrippedParts(db, g, o, d);
      var row := g.orders[o].(driver := None, status := Searching);
      var free := Put(SetAway(g, d), o, row);
      FreedDuring(db, g, o, d, free, row);
      NobodyLeft(db, g, o, d, free, row);
      NotStuck(free, o, env);
      AdriftOpen(free, o);
      OfferKeeps(free, o, {}, None, env, depth, Some(d));
      KeptCalm(free, OfferToNextDriver(free, o, {}, None, env, depth).db, o, Some(d));
      CalmFrame(free, OfferToNextDriver(free, o, {}, None, env, depth).db);
      NotWedged(OfferToNextDriver(free, o, {}, None, env, depth).db, env);
    }
  }

  lemma NobodyLeft(db: Db, g: Db, o: OrderId, d: DriverId, free: Db, row: Order)
    requires NobodyOnline(db) && Stripped(db, g, o, d) && o in g.orders && free == Put(SetAway(g, d), o, row)
    ensures NobodyOnline(free) && o in free.orders
  {
    hide InvDuring;
  }

  lemma NotStuck(db: Db, o: OrderId, env: Env)
    requires NobodyOnline(db) && o in db.orders
    ensures !Stuck(db, o, env)
  {
    hide HasWaiting, ClaimTrip;
    NobodyWaits(db, StageLine(db.orders[o]), {});
    NobodyWaits(db, Gorno, {});
  }

  lemma NotWedged(db: Db, env: Env)
    requires NobodyOnline(db)
    ensures !Wedged(db, env)
  {
    hide Repair, PromptsStand, FirstActed, Circles, With, PausePrompts;
    RepairFrame(db);
    var polled := With(db.parked, Polling);
    var mid := if polled == [] then db else Repair(db);
    var parked := if polled == [] then db.parked else PausePrompts(db.parked, None);
    NobodyWedges(mid.(parked := parked), With(parked, ParkWaiting), env);
  }
}
