// A request made to one driver in person: when, exactly, somebody else is asked.
module Personal {
  import opened Options
  import opened DispatchState
  import opened OrderTable
  import opened DriverLine
  import opened Cascade
  import opened CascadeInv
  import opened CascadeDepth
  import opened Frames
  import opened PassengerQueue
  import opened Transactions
  import opened Trips
  import opened Handoff
  import opened OfferSteps
  import opened ClaimSteps
  import opened RouteSteps
  import opened TripSteps
  import opened TripSafety
  import opened CancelSafety
  import opened BrokenEnds
  import opened BrokenCar
  import opened Sending
  import opened PassengerSteps
  import opened Protocol
  import opened Asking
  import Custody
  import CustodyRuns
  import Findings

  // The request lies before somebody it was not made to.
  predicate Strays(db: Db, p: OrderId)
  {
    && p in db.orders && db.orders[p].request.requested.Some?
    && db.orders[p].status == Searching && db.orders[p].offered.Some?
    && db.orders[p].offered != db.orders[p].request.requested
  }

  // The state in which a broken car's ride looks for another driver.
  function PassedOn(db: Db, d: DriverId, p: OrderId, env: Env, depth: nat): (t: Option<Db>)
    ensures t.Some? ==> p in t.value.orders
  {
    if RideOf(db, d) != Some(p) || d !in db.drivers then None
    else
      var r := ReleaseRouteOffers(db, p, env, depth);
      if r.TooDeep? || d !in r.db.drivers then None
      else
        var g := GiveBack(r.db, d, env, depth);
        if g.TooDeep? || p !in g.db.orders || d !in g.db.drivers || g.db.orders[p].notes.claimedOffline then None
        else Some(Put(SetAway(g.db, d), p, g.db.orders[p].(driver := None, status := Searching)))
  }

  function WithAddress(db: Db, p: OrderId, route: Route): (t: Db)
    requires p in db.orders
    ensures p in t.orders
  {
    Put(db, p, Readdressed(db.orders[p], route)).(parked := Unpark(db.parked, p))
  }

  // The state in which the event makes order p look for a driver anew, if it does.
  function Seeks(db: Db, ev: Event, env: Env, depth: nat, p: OrderId): (t: Option<Db>)
    requires p in db.orders
    ensures t.Some? ==> p in t.value.orders
  {
    match ev
    case ClaimsFromChat(o, d) =>
      if CustodyRuns.WithdrawnBy(db, o, d) == Some(p) then Chased(db, o, d, p, env) else None
    case DriverCancels(d, CarBroken) => PassedOn(db, d, p, env, depth)
    case NewAddress(o, route) => if o == p && db.orders[p].driver.None? then Some(WithAddress(db, p, route)) else None
    case _ => None
  }

  // The driver has taken another order from the chat.
  function Chased(db: Db, o: OrderId, d: DriverId, p: OrderId, env: Env): (t: Option<Db>)
    requires ChatOpen(db, o, d) && p in db.orders
    ensures t.Some? ==> p in t.value.orders
  {
    var t := Findings.LeftBehind(db, o, d, p, env);
    if p in t.orders then Some(t) else None
  }

  // Whom the event makes order p ask, if anybody.
  function AskedAnew(db: Db, ev: Event, env: Env, depth: nat, p: OrderId): Option<DriverId>
    requires p in db.orders
  {
    var t := Seeks(db, ev, env, depth, p);
    if t.Some? then FirstAsked(t.value, p, env) else None
  }

  // ---------------------------------------------------------------- one event

  // A personal request that is in its hands comes before somebody else in one step
  // exactly when its driver claims another order from the chat, his car breaks down
  // on the ride, or its address is rewritten, and the driver then asked is another.
  lemma StraysIff(db: Db, ev: Event, env: Env, depth: nat, p: OrderId)
    requires Inv(db) && p in db.orders && db.orders[p].request.requested.Some? && Custody.InHands(db.orders[p])
    requires depth >= 2
    ensures Strays(Step(db, ev, env, depth), p) <==>
      && Attempt(db, ev, env, depth).Done?
      && AskedAnew(db, ev, env, depth, p).Some? && AskedAnew(db, ev, env, depth, p) != db.orders[p].request.requested
  {
    hide Inv, Step, Attempt, FirstAsked, CustodyRuns.ChatLoosens;
    hide CustodyRuns.PassedRide, PassedOn, CustodyRuns.WithdrawnBy, Chased;
    hide Strays, WithAddress, ChatOpen;
    if p !in CustodyRuns.Loosened(db, ev) {
      KeptClose(db, ev, env, depth, p);
      NotSought(db, ev, env, depth, p);
    } else if ev.ClaimsFromChat? {
      ChatStraysIff(db, ev.order, ev.driver, env, depth, p);
    } else if ev.NewAddress? {
      AddressStraysIff(db, ev.route, env, depth, p);
    } else {
      CarStraysIff(db, ev.driver, env, depth, p);
    }
  }

  // Elsewhere it stays with the driver it was made to.
  lemma KeptClose(db: Db, ev: Event, env: Env, depth: nat, p: OrderId)
    requires Inv(db) && p in db.orders && Custody.InHands(db.orders[p]) && p !in CustodyRuns.Loosened(db, ev)
    ensures !Strays(Step(db, ev, env, depth), p)
  {
    hide Inv, Step, CustodyRuns.Loosened;
    CustodyRuns.InvSane(db);
    CustodyRuns.HandsStep(db, ev, env, depth, p);
  }

  lemma NotSought(db: Db, ev: Event, env: Env, depth: nat, p: OrderId)
    requires Inv(db) && p in db.orders && p !in CustodyRuns.Loosened(db, ev)
    ensures Seeks(db, ev, env, depth, p).None?
  {
    hide InvDuring, ReleaseRouteOffers, GiveBack, RideOf, OfferOf, Findings.LeftBehind, Stripped, Released;
    if ev.DriverCancels? && ev.why == CarBroken && PassedOn(db, ev.driver, p, env, depth).Some? {
      var d := ev.driver;
      RideOfIsRide(db, d, None);
      CarRow(db, d, p, env, depth);
    }
  }

  // The ride is the same until it is given up.
  lemma CarRow(db: Db, d: DriverId, p: OrderId, env: Env, depth: nat)
    requires Inv(db) && p in db.orders && Owns(db.orders[p], d, Ride)
    ensures var r := ReleaseRouteOffers(db, p, env, depth); var g := GiveBack(r.db, d, env, depth);
      r.Done? ==>
        && Stripped(db, g.db, p, d) && p in g.db.orders && g.db.orders[p] == db.orders[p]
        && d in r.db.drivers && d in g.db.drivers
  {
    hide InvDuring, Released, GiveBack, ReleaseRouteOffers, Lawful;
    ReleaseFirstKeeps(db, p, d, env, depth);
    var r := ReleaseRouteOffers(db, p, env, depth);
    if r.Done? {
      GiveBackStrips(db, r.db, p, d, env, depth);
      ReleasedRow(db, r.db, p, d);
    }
  }

  // ---------------------------------------------------------------- the cascade

  lemma AskedStrays(t: Db, r: Db, p: OrderId, env: Env, depth: nat)
    requires Ready(t, p) && depth >= 2
    requires p in r.orders && Moves(t, OfferToNextDriver(t, p, {}, None, env, depth).db, p)
    requires r.orders[p] == OfferToNextDriver(t, p, {}, None, env, depth).db.orders[p]
    ensures Strays(r, p) <==>
      && t.orders[p].request.requested.Some?
      && FirstAsked(t, p, env).Some? && FirstAsked(t, p, env) != t.orders[p].request.requested
  {
    hide OfferToNextDriver, FirstAsked, Ready, Quiet;
    CascadeAsks(t, p, None, env, depth);
  }

  // ---------------------------------------------------------------- from the chat

  lemma ChatStraysIff(db: Db, o: OrderId, d: DriverId, env: Env, depth: nat, p: OrderId)
    requires Inv(db) && p in db.orders && db.orders[p].request.requested.Some? && p in CustodyRuns.ChatLoosens(db, o, d)
    requires depth >= 2
    ensures var ev := ClaimsFromChat(o, d);
      Strays(Step(db, ev, env, depth), p) <==>
        && Attempt(db, ev, env, depth).Done?
        && AskedAnew(db, ev, env, depth, p).Some? && AskedAnew(db, ev, env, depth, p) != db.orders[p].request.requested
  {
    hide InvDuring, FirstAsked, TakeFromChat, OfferToNextDriver, Moves, Ready, OfferOf, Findings.LeftBehind;
    ChatIs(db, o, d, env, depth);
    if CustodyRuns.WithdrawnBy(db, o, d) == Some(p) {
      WithdrawnParts(db, o, d, p);
      LeftReady(db, o, d, p, env, depth);
      var t := Findings.LeftBehind(db, o, d, p, env);
      AskedStrays(t, TakeFromChat(db, o, d, env, depth).db, p, env, depth);
    } else {
      TakeFromChatSound(db, o, d, env, depth);
    }
  }

  lemma ChatIs(db: Db, o: OrderId, d: DriverId, env: Env, depth: nat)
    ensures Attempt(db, ClaimsFromChat(o, d), env, depth).Done?
    ensures Step(db, ClaimsFromChat(o, d), env, depth) == TakeFromChat(db, o, d, env, depth).db
  {
    hide OfferToNextDriver, ChatOpen, OfferOf, TakeOver, Readied;
  }

  lemma WithdrawnParts(db: Db, o: OrderId, d: DriverId, p: OrderId)
    requires Inv(db) && CustodyRuns.WithdrawnBy(db, o, d) == Some(p)
    ensures ChatOpen(db, o, d) && OfferOf(db, d) == Some(p) && p != o && LiveOffer(db.orders, p, d)
  {
    hide Inv, ChatOpen, OfferOf;
    OfferOfIsOffer(db, d);
  }

  // The withdrawn order is ready to be handed on.
  lemma LeftReady(db: Db, o: OrderId, d: DriverId, p: OrderId, env: Env, depth: nat)
    requires Inv(db) && ChatOpen(db, o, d) && OfferOf(db, d) == Some(p) && p != o && LiveOffer(db.orders, p, d)
    ensures var t := Findings.LeftBehind(db, o, d, p, env);
      && Ready(t, p) && t.orders[p].request == db.orders[p].request
      && TakeFromChat(db, o, d, env, depth).db == OfferToNextDriver(t, p, {}, None, env, depth).db
      && Moves(t, OfferToNextDriver(t, p, {}, None, env, depth).db, p)
      && p in TakeFromChat(db, o, d, env, depth).db.orders
  {
    hide InvDuring, Lawful, TakeOver, Readied, OfferedTo, HasClaim, OnlyDriver, OfferToNextDriver, Moves, Adrift, Ready;
    hide ReleaseOffer, RowOk, RowLaw, OfferOf;
    var row := db.orders[p].(offered := None);
    var freed := Put(ReleaseOffer(db, d), p, row);
    ChatRideNone(db, o, d);
    OfferedIsSearching(db, p);
    WithdrawnClosed(db.orders[p], d, env);
    ReleaseIsLocal(db, d, Dislike);
    OfferFreed(db, p, d, row, ReleaseOffer(db, d), env);
    OfferGone(db, p, d, row, env);
    assert freed.orders == Put(db, p, row).orders && d in freed.drivers by { FreedFrame(db, d, p, row); }
    assert !OfferedTo(freed, d) by { SameOffers(Put(db, p, row), freed, d); }
    TakeReady(db, freed, o, d, env);
    var t := TakeOver(Readied(freed, d), o, d, !freed.drivers[d].onLine, env);
    StillAdrift(freed, t, o, p);
    ReadyOf(t, p, None);
    OfferKeeps(t, p, {}, None, env, depth, None);
  }

  // ---------------------------------------------------------------- a new address

  lemma AddressStraysIff(db: Db, route: Route, env: Env, depth: nat, p: OrderId)
    requires Inv(db) && p in db.orders && db.orders[p].request.requested.Some? && Custody.InHands(db.orders[p])
    requires depth >= 2
    ensures var ev := NewAddress(p, route);
      Strays(Step(db, ev, env, depth), p) <==>
        && Attempt(db, ev, env, depth).Done?
        && AskedAnew(db, ev, env, depth, p).Some? && AskedAnew(db, ev, env, depth, p) != db.orders[p].request.requested
  {
    hide InvDuring, FirstAsked, OfferToNextDriver, Moves, Ready;
    AddressIs(db, p, route, env, depth);
    var t := WithAddress(db, p, route);
    if db.orders[p].driver.None? {
      AddressReady(db, p, route, env, depth);
      AskedStrays(t, OfferToNextDriver(t, p, {}, None, env, depth).db, p, env, depth);
      CascadeAsks(t, p, None, env, depth);
    } else {
      OwnedStays(t, p, env, depth);
    }
  }

  lemma AddressIs(db: Db, p: OrderId, route: Route, env: Env, depth: nat)
    requires p in db.orders
    ensures var r := OfferToNextDriver(WithAddress(db, p, route), p, {}, None, env, depth);
      && Attempt(db, NewAddress(p, route), env, depth) == r
      && Step(db, NewAddress(p, route), env, depth) == if r.Done? then r.db else db
  {
    hide OfferToNextDriver;
  }

  lemma AddressReady(db: Db, p: OrderId, route: Route, env: Env, depth: nat)
    requires Inv(db) && p in db.orders && db.orders[p].driver.None?
    ensures var t := WithAddress(db, p, route);
      Ready(t, p) && Moves(t, OfferToNextDriver(t, p, {}, None, env, depth).db, p)
  {
    hide InvDuring, OfferToNextDriver, Moves, Ready;
    RowPartsOf(db, p, None);
    var row := Readdressed(db.orders[p], route);
    UnparkLeavesOk(db, p, row);
    FreeRow(db, p, row, Unpark(db.parked, p), None);
    var t := WithAddress(db, p, route);
    ReadyOf(t, p, None);
    OfferKeeps(t, p, {}, None, env, depth, None);
  }

  lemma OwnedStays(t: Db, p: OrderId, env: Env, depth: nat)
    requires p in t.orders && t.orders[p].driver.Some? && t.orders[p].offered.None?
    ensures !Strays(OfferToNextDriver(t, p, {}, None, env, depth).db, p)
  {
  }

  // ---------------------------------------------------------------- a broken car

  lemma CarStraysIff(db: Db, d: DriverId, env: Env, depth: nat, p: OrderId)
    requires Inv(db) && p in db.orders && db.orders[p].request.requested.Some? && Custody.InHands(db.orders[p])
    requires depth >= 2
    requires p in CustodyRuns.PassedRide(db, d)
    ensures var ev := DriverCancels(d, CarBroken);
      Strays(Step(db, ev, env, depth), p) <==>
        && Attempt(db, ev, env, depth).Done?
        && AskedAnew(db, ev, env, depth, p).Some? && AskedAnew(db, ev, env, depth, p) != db.orders[p].request.requested
  {
    hide *;
    RideIsPassed(db, d, p);
    RideOfIsRide(db, d, None) by { Findings.DuringIs(db); }
    RiderKnown(db, p, d);
    CarRow(db, d, p, env, depth);
    Findings.CarIsStep(db, d, env, depth);
    var r := ReleaseRouteOffers(db, p, env, depth);
    var g := GiveBack(r.db, d, env, depth);
    BreakdownIs(db, d, p, env, depth);
    PassedOnIs(db, d, p, env, depth);
    CarAskedAnew(db, d, p, env, depth);
    InHandsClose(db, p);
    if r.Done? && g.Done? {
      var free := Put(SetAway(g.db, d), p, g.db.orders[p].(driver := None, status := Searching));
      PassedStraysIff(db, g.db, free, p, d, env, depth);
    }
  }

  lemma RideIsPassed(db: Db, d: DriverId, p: OrderId)
    requires p in CustodyRuns.PassedRide(db, d)
    ensures RideOf(db, d) == Some(p) && p in db.orders && !db.orders[p].notes.claimedOffline
  {
  }

  lemma InHandsClose(db: Db, p: OrderId)
    requires p in db.orders && Custody.InHands(db.orders[p])
    ensures !Strays(db, p)
  {
  }

  lemma CarAskedAnew(db: Db, d: DriverId, p: OrderId, env: Env, depth: nat)
    requires p in db.orders
    ensures var t := PassedOn(db, d, p, env, depth);
      AskedAnew(db, DriverCancels(d, CarBroken), env, depth, p) == if t.Some? then FirstAsked(t.value, p, env) else None
  {
    hide PassedOn, FirstAsked;
  }

  lemma PassedOnIs(db: Db, d: DriverId, p: OrderId, env: Env, depth: nat)
    requires RideOf(db, d) == Some(p) && p in db.orders && d in db.drivers && !db.orders[p].notes.claimedOffline
    requires var r := ReleaseRouteOffers(db, p, env, depth); var g := GiveBack(r.db, d, env, depth);
      (r.Done? ==> d in r.db.drivers && d in g.db.drivers && p in g.db.orders && g.db.orders[p] == db.orders[p])
    ensures var r := ReleaseRouteOffers(db, p, env, depth); var g := GiveBack(r.db, d, env, depth);
      PassedOn(db, d, p, env, depth) ==
      if r.TooDeep? || g.TooDeep? then None
      else Some(Put(SetAway(g.db, d), p, g.db.orders[p].(driver := None, status := Searching)))
  {
    hide RideOf, ReleaseRouteOffers, GiveBack, SetAway;
  }

  lemma BreakdownIs(db: Db, d: DriverId, p: OrderId, env: Env, depth: nat)
    requires RideOf(db, d) == Some(p) && p in db.orders && d in db.drivers
    requires var r := ReleaseRouteOffers(db, p, env, depth); var g := GiveBack(r.db, d, env, depth);
      && !db.orders[p].notes.claimedOffline
      && (r.Done? ==> d in r.db.drivers && d in g.db.drivers && p in g.db.orders && g.db.orders[p] == db.orders[p])
    ensures var r := ReleaseRouteOffers(db, p, env, depth); var g := GiveBack(r.db, d, env, depth);
      var c := DriverCancel(db, d, CarBroken, env, depth);
      if r.TooDeep? || g.TooDeep? then c.TooDeep?
      else
        c == ThenAway(ThenPromote(OfferToNextDriver(
               Put(SetAway(g.db, d), p, g.db.orders[p].(driver := None, status := Searching)), p, {}, None, env, depth),
               env, depth), d)
  {
    hide RideOf, ReleaseRouteOffers, GiveBack, SetAway, OfferToNextDriver, TryPromote;
  }

  lemma PassedStraysIff(db: Db, g: Db, free: Db, p: OrderId, d: DriverId, env: Env, depth: nat)
    requires Inv(db) && Stripped(db, g, p, d) && p in g.orders && d in g.drivers && g.orders[p] == db.orders[p]
    requires depth >= 2
    requires free == Put(SetAway(g, d), p, g.orders[p].(driver := None, status := Searching))
    requires db.orders[p].request.requested.Some?
    ensures p in free.orders
    ensures var c := ThenAway(ThenPromote(OfferToNextDriver(free, p, {}, None, env, depth), env, depth), d);
      c.Done? ==>
        (Strays(c.db, p) <==>
          FirstAsked(free, p, env).Some? && FirstAsked(free, p, env) != db.orders[p].request.requested)
  {
    hide InvDuring, FirstAsked, SetAway, OfferToNextDriver, TryPromote, Stripped, Ready, Moves, Adrift, Quiet, Calm;
    var row := g.orders[p].(driver := None, status := Searching);
    FreedDuring(db, g, p, d, free, row);
    ReadyOf(free, p, Some(d));
    OfferKeeps(free, p, {}, None, env, depth, Some(d));
    CascadeAsks(free, p, None, env, depth);
    var f := OfferToNextDriver(free, p, {}, None, env, depth);
    if f.Done? {
      AskedStrays(free, f.db, p, env, depth);
      var t := TryPromote(f.db, env, depth).db;
      CheckLeavesAsked(free, f.db, p, env, depth, Some(d));
      AwayOrders(t, d);
    }
  }

  lemma AwayOrders(t: Db, d: DriverId)
    ensures d in t.drivers ==> SetAway(t, d).orders == t.orders
  {
  }

  // What the check makes of an order that has just been handed out or parked.
  lemma CheckLeavesAsked(free: Db, f: Db, p: OrderId, env: Env, depth: nat, e: Option<DriverId>)
    requires InvDuring(f, e) && Adrift(free, p) && Moves(free, f, p)
    requires f.orders[p].offered.Some? ==> f.orders[p].status == Searching
    requires f.orders[p].offered.None? ==> Quiet(f, p)
    ensures var t := TryPromote(f, env, depth).db; p in t.orders && t.orders[p] == f.orders[p]
  {
    hide InvDuring, TryPromote, Quiet, Calm;
    if f.orders[p].offered.Some? {
      TryPromoteKeeps(f, env, depth, e);
      CalmRow(f, TryPromote(f, env, depth).db, p);
    } else {
      CheckLeavesQuiet(f, p, env, depth, e);
    }
  }

  // With no card for the ride and no reservation, that state is at hand.
  lemma PassedOnDirectly(db: Db, d: DriverId, p: OrderId, env: Env, depth: nat)
    requires Inv(db) && RideOf(db, d) == Some(p) && ReservationOf(db, d).None? && NoSlotOf(db.orders, d)
    requires p in db.orders && !db.orders[p].notes.claimedOffline
    ensures d in db.drivers
    ensures PassedOn(db, d, p, env, depth)
         == Some(Put(SetAway(db, d), p, db.orders[p].(driver := None, status := Searching)))
  {
    hide InvDuring, RideOf, ReservationOf, SetAway;
    RideOfIsRide(db, d, None);
    RiderKnown(db, p, d);
    forall a: OrderId ensures !RoutedOn(db.orders, a, p) {
      if RoutedOn(db.orders, a, p) {
        CardTrip(db, a, db.orders[a].slot.driver.value);
      }
    }
    EmptyRouted(db.orders, p, db.nextOrder);
  }

  // ---------------------------------------------------------------- runs

  // A personal request is made to its driver, and stays in his hands as long as none
  // of the three events concerns it.
  lemma BornInHands(db: Db, h: nat, request: Request, env: Env, depth: nat)
    requires Inv(db)
    ensures var r := Step(db, Submit(h, request), env, depth); var p := db.nextOrder;
      p !in db.orders && (p in r.orders ==> r.orders[p].request.requested.Some? && Custody.InHands(r.orders[p]))
  {
    hide RideOf, OfferOf;
  }

  lemma {:induction false} StaysInHands(db: Db, turns: seq<Turn>, i: nat, j: nat, p: OrderId)
    requires Custody.Sane(db) && i <= j <= |turns|
    requires p in After(db, turns, i).orders && Custody.InHands(After(db, turns, i).orders[p])
    requires forall k :: i <= k < j ==> p !in CustodyRuns.Loosened(After(db, turns, k), turns[k].ev)
    ensures p in After(db, turns, j).orders && Custody.InHands(After(db, turns, j).orders[p])
    ensures !Strays(After(db, turns, j), p)
    decreases j
  {
    hide Custody.Sane, Step, CustodyRuns.Loosened;
    if i < j {
      StaysInHands(db, turns, i, j - 1, p);
      CustodyRuns.RunSane(db, turns, j - 1);
      CustodyRuns.HandsStep(After(db, turns, j - 1), turns[j - 1].ev, turns[j - 1].env, turns[j - 1].depth, p);
    }
  }

  // ---------------------------------------------------------------- each of the three

  const NOWHERE := Route(None, None, None, None, false)

  // Driver 0 in some state, driver 1 waiting behind him on the Gornozavodsk line.
  function Two(orders: Orders, n: OrderId, first: DriverStatus, place: RowStatus): Db
  {
    Db(orders, n, [0, 1],
       map[0 := Driver(true, first, true, false, false, true, Some(Gorno)),
           1 := Driver(true, Online, true, false, false, true, Some(Gorno))],
       map[0 := QueueRow(place, Some(Gorno), 1), 1 := QueueRow(Waiting, Some(Gorno), 2)],
       [], map[], 0, {Gorno})
  }

  // A request made to driver 0 in person, at some stage.
  function Made(status: Status, driver: Option<DriverId>, offered: Option<DriverId>): Order
  {
    Order(status, Request(7, false, false, NOWHERE, Some(0)), driver, offered, false, None, false,
          NO_ROUTE_OFFER, false, Findings.CLEAN_NOTES)
  }

  function Ridden(): Db { Two(map[0 := Made(Assigned, Some(0), None)], 1, Busy, OnRide) }

  function GivenUp(): Db { Two(map[0 := Made(Cancelled, None, None)], 1, Away, AwayRow) }

  function Asked(): Db
  {
    Two(map[0 := Made(Searching, None, Some(0)),
            1 := Made(ChatSearch, None, None).(request := Request(8, false, false, NOWHERE, None))], 2, Online, Offered)
  }

  lemma RiddenOk()
    ensures Inv(Ridden())
  {
    hide RowOk, OrdersInv, Seated, RosterOk, DistinctPositions;
    RowsOk();
    LoneClaim(Ridden().orders, 0);
    PlacesOk(Ridden());
    QuietSeats(Ridden());
  }

  lemma GivenUpOk()
    ensures Inv(GivenUp())
  {
    hide RowOk, OrdersInv, Seated, RosterOk, DistinctPositions;
    RowsOk();
    LoneClaim(GivenUp().orders, 0);
    PlacesOk(GivenUp());
    QuietSeats(GivenUp());
  }

  lemma AskedOk()
    ensures Inv(Asked())
  {
    hide RowOk, OrdersInv, Seated, RosterOk, DistinctPositions;
    RowsOk();
    LoneClaim(Asked().orders, 0);
    PlacesOk(Asked());
    AskedSeats();
  }

  // One commitment at most, and no cards.
  lemma LoneClaim(orders: Orders, o: OrderId)
    requires forall a :: a in orders ==> RowOk(orders[a]) && orders[a].slot == NO_ROUTE_OFFER
    requires forall a :: a in orders && a != o ==> Holder(orders[a]).None?
    requires o in orders && orders[o].status != ParallelAssigned
    ensures OrdersInv(orders, None)
  {
  }

  lemma RowsOk()
    ensures forall o :: o in Ridden().orders ==> RowOk(Ridden().orders[o])
    ensures forall o :: o in GivenUp().orders ==> RowOk(GivenUp().orders[o])
    ensures forall o :: o in Asked().orders ==> RowOk(Asked().orders[o])
  {
  }

  // Nobody is asked, and whoever rides is not online.
  lemma QuietSeats(db: Db)
    requires forall o :: o in db.orders ==> db.orders[o].offered.None? && db.orders[o].reserved.None?
    requires forall o :: o in db.orders && db.orders[o].driver.Some? ==>
               db.orders[o].driver.value in db.drivers && db.drivers[db.orders[o].driver.value].status != Online
    ensures Seated(db)
  {
  }

  lemma AskedSeats()
    ensures Seated(Asked())
  {
    var db := Asked();
    assert SeatedOffer(db, 0, 0);
    forall o, d: DriverId | LiveOffer(db.orders, o, d) ensures o == 0 && d == 0 { }
    forall o, d: DriverId | o in db.orders ensures !Works(db.orders[o], d) { }
  }

  lemma PlacesOk(db: Db)
    requires db.roster == [0, 1] && db.drivers.Keys == {0, 1} && db.queue.Keys == {0, 1}
    requires db.queue[0].position != db.queue[1].position && forall o :: o in db.orders ==> o < db.nextOrder
    ensures RosterOk(db) && DistinctPositions(db.queue)
  {
    assert db.roster[0] == 0 && db.roster[1] == 1;
  }

  // Driver 1 is the one who can be asked.
  ghost predicate OnlySecond(t: Db)
  {
    && RosterOk(t) && DistinctPositions(t.queue) && t.drivers.Keys == {0, 1} && 1 in t.queue && Gorno in t.lines
    && t.drivers[1] == Driver(true, Online, true, false, false, true, Some(Gorno)) && t.drivers[0].status != Online
    && t.queue[1] == QueueRow(Waiting, Some(Gorno), 2)
    && (forall o :: o in t.orders ==>
          t.orders[o].driver != Some(1) && t.orders[o].reserved != Some(1) && t.orders[o].offered != Some(1))
  }

  lemma SecondAsked(t: Db, p: OrderId, env: Env)
    requires OnlySecond(t) && p in t.orders && RouteCity(t.orders[p]).None? && t.orders[p].notes.declined == {}
    ensures FirstAsked(t, p, env) == Some(1) && Pick(Repair(t), Gorno, {}) == Some(1) && 1 in Repair(t).queue
  {
    hide Repair, RosterOk, DistinctPositions, Pick;
    Findings.KeepsWaiting(t, 1, Gorno);
    RepairFrame(t);
    var r := Repair(t);
    assert Eligible(r, Gorno, {}, 1);
    PickIsFirst(r, Gorno, {});
  }

  // The broken car.
  lemma BrokenCarStrays(env: Env, depth: nat)
    requires depth >= 2
    ensures Inv(Ridden()) && 0 in Ridden().orders && Custody.InHands(Ridden().orders[0])
    ensures Strays(Step(Ridden(), DriverCancels(0, CarBroken), env, depth), 0)
  {
    hide *;
    RiddenOk();
    RiddenAsks(env, depth);
    RiddenDone(env, depth);
    RiddenRow();
    StraysIff(Ridden(), DriverCancels(0, CarBroken), env, depth, 0);
  }

  lemma RiddenRow()
    ensures 0 in Ridden().orders && 0 in Ridden().drivers && Ridden().orders[0].request.requested == Some(0)
    ensures Custody.InHands(Ridden().orders[0]) && !Ridden().orders[0].notes.claimedOffline
  {
  }

  lemma RiddenAsks(env: Env, depth: nat)
    requires Inv(Ridden())
    ensures 0 in Ridden().orders && AskedAnew(Ridden(), DriverCancels(0, CarBroken), env, depth, 0) == Some(1)
    ensures var t := PassedOn(Ridden(), 0, 0, env, depth);
      t.Some? && OnlySecond(t.value) && Ready(t.value, 0) && t.value.parked == [] && 0 in t.value.orders
      && RouteCity(t.value.orders[0]).None? && t.value.orders[0].notes.declined == {}
  {
    hide *;
    RiddenRow();
    RiddenBy();
    PassedOnDirectly(Ridden(), 0, 0, env, depth);
    var t := PassedOn(Ridden(), 0, 0, env, depth).value;
    RiddenFreed(t);
    SecondAsked(t, 0, env);
    CarAskedAnew(Ridden(), 0, 0, env, depth);
  }

  lemma RiddenDone(env: Env, depth: nat)
    requires Inv(Ridden()) && depth >= 2
    ensures Attempt(Ridden(), DriverCancels(0, CarBroken), env, depth).Done?
  {
    hide *;
    RiddenRow();
    RiddenBy();
    RiddenAsks(env, depth);
    var t := PassedOn(Ridden(), 0, 0, env, depth).value;
    RiddenEnds(t, env, depth);
    CarRow(Ridden(), 0, 0, env, depth);
    PassedParts(Ridden(), t, env, depth);
    BreakdownIs(Ridden(), 0, 0, env, depth);
    Findings.CarIsStep(Ridden(), 0, env, depth);
    EndsAway(OfferToNextDriver(t, 0, {}, None, env, depth), env, depth);
  }

  lemma EndsAway(f: Outcome, env: Env, depth: nat)
    requires f.Done? && TryPromote(f.db, env, depth).Done?
    ensures ThenAway(ThenPromote(f, env, depth), 0).Done?
  {
    hide TryPromote;
  }

  lemma RiddenBy()
    ensures RideOf(Ridden(), 0) == Some(0) && ReservationOf(Ridden(), 0) == None && NoSlotOf(Ridden().orders, 0)
    ensures Owns(Ridden().orders[0], 0, Ride)
  {
    assert Locks(Ridden().orders[0], 0);
    assert ReservedBelow(Ridden().orders, 0, 0) == None;
  }

  lemma RiddenFreed(t: Db)
    requires 0 in Ridden().drivers && 0 in Ridden().orders
    requires t == Put(SetAway(Ridden(), 0), 0, Ridden().orders[0].(driver := None, status := Searching))
    ensures OnlySecond(t) && Ready(t, 0) && t.parked == [] && 0 in t.orders
    ensures RouteCity(t.orders[0]).None? && t.orders[0].notes.declined == {}
  {
    PlacesOk(t);
  }

  // The transaction as a whole comes to its end.
  lemma RiddenEnds(t: Db, env: Env, depth: nat)
    requires Ready(t, 0) && t.parked == [] && OnlySecond(t) && 0 in t.orders && depth >= 2
    requires RouteCity(t.orders[0]).None? && t.orders[0].notes.declined == {}
    ensures var f := OfferToNextDriver(t, 0, {}, None, env, depth); f.Done? && TryPromote(f.db, env, depth).Done?
  {
    hide HandleNoDriver, Repair, Ready, OnlySecond, Pick;
    SecondAsked(t, 0, env);
    ReadyParts(t, 0);
    RepairFrame(t);
    var none: set<DriverId> := {};
    assert none + none == none;
  }

  lemma PassedParts(db: Db, t: Db, env: Env, depth: nat)
    requires RideOf(db, 0) == Some(0) && PassedOn(db, 0, 0, env, depth) == Some(t)
    ensures var r := ReleaseRouteOffers(db, 0, env, depth); var g := GiveBack(r.db, 0, env, depth);
      && r.Done? && g.Done? && 0 in g.db.orders && 0 in g.db.drivers
      && t == Put(SetAway(g.db, 0), 0, g.db.orders[0].(driver := None, status := Searching))
  {
    hide RideOf, ReleaseRouteOffers, GiveBack, SetAway;
  }

  // A new address for a request that is over.
  lemma NewAddressStrays(env: Env, depth: nat)
    requires depth >= 2
    ensures Inv(GivenUp()) && 0 in GivenUp().orders && Custody.InHands(GivenUp().orders[0])
    ensures Strays(Step(GivenUp(), NewAddress(0, NOWHERE), env, depth), 0)
  {
    hide Inv, Step, Attempt, FirstAsked, OnlySecond, OfferToNextDriver, Quiet, Ready, Moves;
    GivenUpOk();
    var db := GivenUp();
    var t := WithAddress(db, 0, NOWHERE);
    GivenUpFreed(t);
    SecondAsked(t, 0, env);
    AddressIs(db, 0, NOWHERE, env, depth);
    AddressReady(db, 0, NOWHERE, env, depth);
    CascadeAsks(t, 0, None, env, depth);
    StraysIff(db, NewAddress(0, NOWHERE), env, depth, 0);
  }

  lemma GivenUpFreed(t: Db)
    requires 0 in GivenUp().orders && t == WithAddress(GivenUp(), 0, NOWHERE)
    ensures OnlySecond(t) && RouteCity(t.orders[0]).None? && t.orders[0].notes.declined == {}
  {
    PlacesOk(t);
  }

  // A claim from the chat.
  lemma ChatClaimStrays(env: Env, depth: nat)
    requires depth >= 2
    ensures Inv(Asked()) && 0 in Asked().orders && Custody.InHands(Asked().orders[0])
    ensures Strays(Step(Asked(), ClaimsFromChat(1, 0), env, depth), 0)
  {
    hide Inv, Step, Attempt, FirstAsked, OnlySecond, ChatOpen, OfferOf, Findings.LeftBehind;
    AskedOk();
    AskedOpen();
    var t := Findings.LeftBehind(Asked(), 1, 0, 0, env);
    AskedLeft(t, env);
    SecondAsked(t, 0, env);
    ChatIs(Asked(), 1, 0, env, depth);
    StraysIff(Asked(), ClaimsFromChat(1, 0), env, depth, 0);
  }

  lemma AskedOpen()
    ensures ChatOpen(Asked(), 1, 0) && OfferOf(Asked(), 0) == Some(0)
  {
    assert OfferBelow(Asked().orders, 0, 0) == None;
    assert OfferBelow(Asked().orders, 0, 1) == Some(0);
    assert RideBelow(Asked().orders, 0, 0) == None;
    assert RideBelow(Asked().orders, 0, 1) == None;
  }

  lemma AskedLeft(t: Db, env: Env)
    requires 1 in Asked().orders && 0 in Asked().drivers && 0 in Asked().orders
    requires t == Findings.LeftBehind(Asked(), 1, 0, 0, env)
    ensures OnlySecond(t) && 0 in t.orders && RouteCity(t.orders[0]).None? && t.orders[0].notes.declined == {}
  {
    hide MaxPosition, RosterOk, DistinctPositions;
    AskedTable(t, env);
    assert t.lines == {Gorno} && t.orders.Keys == {0, 1};
  }

  lemma AskedTable(t: Db, env: Env)
    requires 1 in Asked().orders && 0 in Asked().drivers && 0 in Asked().orders
    requires t == Findings.LeftBehind(Asked(), 1, 0, 0, env)
    ensures RosterOk(t) && DistinctPositions(t.queue)
  {
    hide MaxPosition;
    PlacesOk(t);
  }
}
