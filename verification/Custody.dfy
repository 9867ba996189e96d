// Who owns an order, and what is never taken back, over every transaction of the
// code, whether it keeps the great invariant or not.
module Custody {
  import opened Options
  import opened DispatchState
  import opened OrderTable
  import opened DriverLine
  import opened Cascade
  import opened PassengerQueue
  import opened Trips
  import opened Handoff
  import opened OfferSteps

  // An offered order has no owner, and a reserved one belongs to who reserved it.
  predicate RowSane(row: Order)
  {
    && (row.offered.Some? ==> row.driver.None? && (row.status == Searching || Closed(row.status)))
    && (row.status == ParallelAssigned && row.reserved.Some? ==> row.driver == row.reserved)
  }

  ghost predicate Sane(db: Db)
  {
    forall o: OrderId :: o in db.orders ==> o < db.nextOrder && RowSane(db.orders[o])
  }

  // A request made to one driver in person is in his hands, or over.
  predicate InHands(row: Order)
  {
    row.request.requested.Some? ==>
      || Closed(row.status)
      || (row.status == Searching && row.offered == row.request.requested)
      || (Riding(row.status) && row.driver == row.request.requested)
  }

  // What an order is exempt from in a step: from nothing, from staying in the hands
  // it is in, or, with its address rewritten, from more.
  datatype Leave = Bound | Loose | Free

  datatype Waiver = LooseOnes(orders: set<OrderId>) | AddressOf(order: OrderId)

  const NOBODY := LooseOnes({})

  function Leaves(w: Waiver, o: OrderId): Leave
  {
    match w
    case LooseOnes(orders) => if o in orders then Loose else Bound
    case AddressOf(a) => if a == o then Free else Bound
  }

  // What happens to an order nobody claims: it may lose its owner, never get one;
  // refusals and suppression stay; the request, the fallback flag and the exclusions
  // stay, and a finished order stays finished, unless the passenger rewrites the
  // address; and a personal request stays in its hands.
  predicate RowTame(a: Order, b: Order, leave: Leave)
  {
    && (b.driver == a.driver || b.driver.None?)
    && a.notes.declined <= b.notes.declined && (a.notes.autoOffersDisabled ==> b.notes.autoOffersDisabled)
    && b.notes.claimedOffline == a.notes.claimedOffline
    && b.request == a.request.(route := b.request.route)
    && (leave != Free ==>
          && b.request == a.request && (a.fallback ==> b.fallback) && a.notes.autoExcluded <= b.notes.autoExcluded
          && (Closed(a.status) ==> Closed(b.status)))
    && (leave == Bound && InHands(a) ==> InHands(b))
  }

  // A card is an old one, or names a trip that was not suppressed.
  ghost predicate CardTame(orders: Orders, orders': Orders, o: OrderId)
    requires o in orders'
  {
    orders'[o].slot.trip.Some? ==>
      || (o in orders && orders[o].slot == orders'[o].slot)
      || (orders'[o].slot.trip.value in orders ==> !orders[orders'[o].slot.trip.value].notes.autoOffersDisabled)
  }

  ghost predicate OrderTame(db: Db, db': Db, waiver: Waiver, o: OrderId)
  {
    && (o in db.orders ==> o in db'.orders && RowTame(db.orders[o], db'.orders[o], Leaves(waiver, o)))
    && (o in db'.orders ==> o < db'.nextOrder && RowSane(db'.orders[o]) && CardTame(db.orders, db'.orders, o))
    && (o in db'.orders && o !in db.orders ==> db'.orders[o].driver.None?)
  }

  ghost predicate Tame(db: Db, db': Db, waiver: Waiver)
  {
    forall o :: OrderTame(db, db', waiver, o)
  }

  // Neither finished nor on the way with its driver.
  predicate Underway(s: Status) { !Closed(s) && !Riding(s) }

  predicate Pendent(row: Order) { row.offered.None? && Underway(row.status) }

  // ---------------------------------------------------------------- composition

  lemma TameThen(a: Db, b: Db, c: Db, x: Waiver)
    requires Tame(a, b, x) && Tame(b, c, x)
    ensures Tame(a, c, x)
  {
    forall o ensures OrderTame(a, c, x, o) {
      assert OrderTame(a, b, x, o) && OrderTame(b, c, x, o);
      if o in c.orders && c.orders[o].slot.trip.Some? {
        assert OrderTame(a, b, x, c.orders[o].slot.trip.value);
      }
    }
  }

  lemma TameSane(db: Db, db': Db, x: Waiver)
    requires Tame(db, db', x)
    ensures Sane(db')
  {
    forall o: OrderId | o in db'.orders ensures o < db'.nextOrder && RowSane(db'.orders[o]) {
      assert OrderTame(db, db', x, o);
    }
  }

  lemma TameMore(db: Db, db': Db, x: Waiver)
    requires Tame(db, db', NOBODY)
    ensures Tame(db, db', x)
  {
    assert forall o :: Leaves(NOBODY, o) == Bound;
    forall o ensures OrderTame(db, db', x, o) { assert OrderTame(db, db', NOBODY, o); }
  }

  lemma TameKeys(db: Db, db': Db, x: Waiver, o: OrderId)
    requires Tame(db, db', x) && o in db.orders
    ensures o in db'.orders && RowTame(db.orders[o], db'.orders[o], Leaves(x, o)) && RowSane(db'.orders[o])
  {
    assert OrderTame(db, db', x, o);
  }

  // Whatever leaves the order table alone.
  ghost predicate Alike(db: Db, db': Db) { db'.orders == db.orders && db'.nextOrder == db.nextOrder }

  lemma AlikeTame(db: Db, db': Db, x: Waiver)
    requires Sane(db) && Alike(db, db')
    ensures Tame(db, db', x)
  {
    forall o ensures OrderTame(db, db', x, o) { }
  }

  // One row rewritten within the rules.
  ghost predicate Rewrites(db: Db, db': Db, o: OrderId, row: Order)
  {
    o in db.orders && db'.orders == db.orders[o := row] && db'.nextOrder == db.nextOrder
  }

  lemma RewriteTame(db: Db, db': Db, o: OrderId, row: Order, x: Waiver)
    requires Sane(db) && Rewrites(db, db', o, row)
    requires RowTame(db.orders[o], row, Leaves(x, o)) && RowSane(row)
    requires row.slot == db.orders[o].slot || row.slot.trip.None?
    ensures Tame(db, db', x)
  {
    forall a ensures OrderTame(db, db', x, a) { }
  }

  lemma ThenAlike(a: Db, b: Db, c: Db, x: Waiver)
    requires Tame(a, b, x) && Alike(b, c)
    ensures Tame(a, c, x)
  {
    TameSane(a, b, x);
    AlikeTame(b, c, x);
    TameThen(a, b, c, x);
  }

  lemma ThenRewrite(a: Db, b: Db, c: Db, o: OrderId, row: Order, x: Waiver)
    requires Tame(a, b, x) && Rewrites(b, c, o, row)
    requires RowTame(b.orders[o], row, Leaves(x, o)) && RowSane(row)
    requires row.slot == b.orders[o].slot || row.slot.trip.None?
    ensures Tame(a, c, x)
  {
    TameSane(a, b, x);
    RewriteTame(b, c, o, row, x);
    TameThen(a, b, c, x);
  }

  // ---------------------------------------------------------------- dispatch

  lemma RepairAlike(db: Db)
    ensures Alike(db, Repair(db)) && Repair(db) == db.(queue := Repair(db).queue)
  {
  }

  lemma CandidateSane(db: Db, o: OrderId)
    requires Sane(db) && o in db.orders && (Candidate(db.orders[o].status) || db.orders[o].status == ParallelAssigned)
    ensures Pendent(db.orders[o])
  {
  }

  lemma {:induction false} OfferTame(db: Db, o: OrderId, skip: set<DriverId>, line: Option<Line>, env: Env, depth: nat)
    requires Sane(db) && o in db.orders
    ensures Tame(db, OfferToNextDriver(db, o, skip, line, env, depth).db, NOBODY)
    decreases depth, 0
  {
    hide Repair, Pick, Tame, Sane, HandleNoDriver, StageLine;
    AlikeTame(db, db, NOBODY);
    if depth > 0 && Offerable(db.orders[o]) {
      RepairAlike(db);
      var mid := Repair(db);
      AlikeTame(db, mid, NOBODY);
      TameSane(db, mid, NOBODY);
      OfferableOpen(mid, o);
      var target := if line.Some? then line.value else StageLine(db.orders[o]);
      var d := Pick(mid, target, db.orders[o].notes.declined + skip);
      if d.Some? && d.value in mid.queue {
        PlaceTame(mid, o, d.value, env);
        TameThen(db, mid, PlaceOffer(mid, o, d.value, env), NOBODY);
      } else {
        HandleTame(mid, o, env, depth - 1);
        TameThen(db, mid, HandleNoDriver(mid, o, env, depth - 1).db, NOBODY);
      }
    }
  }

  lemma OfferableOpen(db: Db, o: OrderId)
    requires Sane(db) && o in db.orders && Offerable(db.orders[o])
    ensures db.orders[o].offered.None? && db.orders[o].driver.None? && Pendent(db.orders[o])
  {
  }

  lemma PlaceTame(db: Db, o: OrderId, d: DriverId, env: Env)
    requires Sane(db) && o in db.orders && d in db.queue && Offerable(db.orders[o])
    ensures Tame(db, PlaceOffer(db, o, d, env), NOBODY)
  {
    hide Sane, Tame;
    var r := PlaceOffer(db, o, d, env);
    RewriteTame(db, r, o, r.orders[o], NOBODY);
  }

  lemma {:induction false} HandleTame(db: Db, o: OrderId, env: Env, depth: nat)
    requires Sane(db) && o in db.orders && Pendent(db.orders[o])
    ensures Tame(db, HandleNoDriver(db, o, env, depth).db, NOBODY)
    decreases depth, 4
  {
    hide Repair, HasWaiting, Tame, Sane, OfferToNextDriver, ParkAndNotify, StageLine;
    RepairAlike(db);
    var mid := Repair(db);
    AlikeTame(db, mid, NOBODY);
    TameSane(db, mid, NOBODY);
    if HasEligible(db, o) {
      OfferTame(mid, o, {}, None, env, depth);
      TameThen(db, mid, OfferToNextDriver(mid, o, {}, None, env, depth).db, NOBODY);
    } else {
      var free := SetStatus(mid, o, NoDrivers);
      ThenRewrite(db, mid, free, o, free.orders[o], NOBODY);
      ChatTame(db, free, o, env);
      EnqueueTame(db, free, o, NOBODY);
      TameSane(db, Enqueue(free, o), NOBODY);
      ParkTame(Enqueue(free, o), o, env, depth);
      TameThen(db, Enqueue(free, o), ParkAndNotify(Enqueue(free, o), o, env, depth).db, NOBODY);
    }
  }

  lemma ChatTame(db: Db, free: Db, o: OrderId, env: Env)
    requires Tame(db, free, NOBODY) && o in free.orders && Pendent(free.orders[o])
    ensures Tame(db, AskChat(free, o, env), NOBODY)
  {
    hide Tame, Sane;
    var asked := SetStatus(free, o, ChatSearch);
    ThenRewrite(db, free, asked, o, asked.orders[o], NOBODY);
  }

  lemma EnqueueTame(db: Db, mid: Db, o: OrderId, x: Waiver)
    requires Tame(db, mid, x) && o in mid.orders && Pendent(mid.orders[o])
    ensures Tame(db, Enqueue(mid, o), x)
  {
    hide Tame, Sane;
    var row := mid.orders[o].(status := Queued);
    ThenAlike(db, mid, mid, x);
    if !IsParked(mid.parked, o) { ThenRewrite(db, mid, Enqueue(mid, o), o, row, x); }
  }

  lemma NotifyTame(db: Db, o: OrderId, env: Env)
    requires Sane(db) && o in db.orders
    ensures Tame(db, NotifyBusyDrivers(db, o, env).db, NOBODY)
  {
    hide Repair, HasWaiting, Tame, Sane, ClaimTrip, StageLine;
    RepairAlike(db);
    AlikeTame(db, db, NOBODY);
    var mid := AfterPriority(db, o);
    AlikeTame(db, mid, NOBODY);
    TameSane(db, mid, NOBODY);
    var trip := ClaimTrip(mid.orders, o, mid.nextOrder);
    if trip.Some? && o in env.cards {
      CardPlaced(mid, o, trip.value, env.cards[o]);
      TameThen(db, mid, PlaceRouteOffer(mid, o, trip.value, env.cards[o]), NOBODY);
    }
  }

  lemma CardPlaced(db: Db, o: OrderId, trip: OrderId, card: CardId)
    requires Sane(db) && o in db.orders && TripEligible(db.orders, trip, o)
    ensures Tame(db, PlaceRouteOffer(db, o, trip, card), NOBODY)
  {
    hide RouteCity, TripLeadsTo, ReservedBy, RouteOfferedElsewhere;
    var r := PlaceRouteOffer(db, o, trip, card);
    forall a ensures OrderTame(db, r, NOBODY, a) { }
  }

  lemma {:induction false} ParkTame(db: Db, o: OrderId, env: Env, depth: nat)
    requires Sane(db) && o in db.orders
    ensures Tame(db, ParkAndNotify(db, o, env, depth).db, NOBODY)
    decreases depth, 3
  {
    hide Tame, Sane, NotifyBusyDrivers, Fallback;
    NotifyTame(db, o, env);
    var n := NotifyBusyDrivers(db, o, env);
    TameSane(db, n.db, NOBODY);
    if RouteCity(db.orders[o]).Some? && !n.created {
      FallbackTame(n.db, o, true, env, depth);
      TameThen(db, n.db, Fallback(n.db, o, true, env, depth).db, NOBODY);
    }
  }

  lemma ParkingTame(db: Db, o: OrderId)
    requires Sane(db) && o in db.orders && Pendent(db.orders[o])
    ensures Tame(db, Parking(db, o), NOBODY) && Parking(db, o).orders[o].status == Queued
  {
    hide Tame, Sane;
    var row := ClearRoute(db.orders[o]).(driver := None, reserved := None, etaChosen := false, status := Queued);
    RewriteTame(db, Put(db, o, row), o, row, NOBODY);
    EnqueueTame(db, Put(db, o, row), o, NOBODY);
    ThenAlike(db, Enqueue(Put(db, o, row), o), Parking(db, o), NOBODY);
  }

  lemma UnparkedTame(db: Db, mid: Db, o: OrderId, x: Waiver)
    requires Tame(db, mid, x) && o in mid.orders && Underway(mid.orders[o].status)
    ensures Tame(db, Unparked(mid, o), x)
  {
    hide Tame, Sane;
    var row := ClearRoute(mid.orders[o]).(status := Searching);
    TameSane(db, mid, x);
    RowOfSane(mid, o);
    ThenRewrite(db, mid, Unparked(mid, o), o, row, x);
  }

  lemma RowOfSane(db: Db, o: OrderId)
    requires Sane(db) && o in db.orders
    ensures RowSane(db.orders[o]) && o < db.nextOrder
  {
  }

  lemma {:induction false} FallbackTame(db: Db, o: OrderId, recheck: bool, env: Env, depth: nat)
    requires Sane(db) && o in db.orders
    ensures Tame(db, Fallback(db, o, recheck, env, depth).db, NOBODY)
    decreases depth, 2
  {
    hide Repair, HasWaiting, Tame, Sane, OfferToNextDriver, EnterFallback, Unparked, Parking;
    AlikeTame(db, db, NOBODY);
    var row := db.orders[o];
    if Candidate(row.status) && row.driver.None? && row.reserved.None? {
      CandidateSane(db, o);
      var p := Parking(db, o);
      ParkingTame(db, o);
      RepairAlike(p);
      ThenAlike(db, p, Repair(p), NOBODY);
      if recheck && RouteCity(row).Some? && !row.fallback {
        var line := VillageLine(RouteCity(row).value);
        if HasWaiting(p, line, {}) { HandOutTame(db, Repair(p), o, line, env, depth); }
        else { EnterTame(db, Repair(p), o, env, depth); }
      } else {
        EnterTame(db, p, o, env, depth);
      }
    }
  }

  lemma {:induction false} HandOutTame(db: Db, mid: Db, o: OrderId, line: Line, env: Env, depth: nat)
    requires Tame(db, mid, NOBODY) && o in mid.orders && Underway(mid.orders[o].status)
    ensures Tame(db, OfferToNextDriver(Unparked(mid, o), o, {}, Some(line), env, depth).db, NOBODY)
    decreases depth, 1, 0
  {
    hide Tame, Sane, OfferToNextDriver, Unparked;
    UnparkedTame(db, mid, o, NOBODY);
    var out := Unparked(mid, o);
    TameSane(db, out, NOBODY);
    OfferTame(out, o, {}, Some(line), env, depth);
    TameThen(db, out, OfferToNextDriver(out, o, {}, Some(line), env, depth).db, NOBODY);
  }

  lemma {:induction false} EnterTame(db: Db, mid: Db, o: OrderId, env: Env, depth: nat)
    requires Tame(db, mid, NOBODY) && o in mid.orders && Underway(mid.orders[o].status)
    ensures Tame(db, EnterFallback(mid, o, env, depth).db, NOBODY)
    decreases depth, 1, 1
  {
    hide Repair, HasWaiting, Tame, Sane, OfferToNextDriver, Unparked;
    var f := Put(mid, o, mid.orders[o].(fallback := true));
    TameSane(db, mid, NOBODY);
    RowOfSane(mid, o);
    ThenRewrite(db, mid, f, o, mid.orders[o].(fallback := true), NOBODY);
    RepairAlike(f);
    ThenAlike(db, f, Repair(f), NOBODY);
    HandOutTame(db, Repair(f), o, Gorno, env, depth);
  }

  // ---------------------------------------------------------------- the opportunity check

  lemma GivenOutTame(db: Db, o: OrderId, env: Env, depth: nat)
    requires Sane(db) && o in db.orders
    ensures Tame(db, GivenOut(db, o, env, depth).db, NOBODY)
  {
    hide Tame, Sane, OfferToNextDriver, Unparked, StageLine;
    AlikeTame(db, db, NOBODY);
    if Candidate(db.orders[o].status) {
      UnparkedTame(db, db, o, NOBODY);
      var out := Unparked(db, o);
      TameSane(db, out, NOBODY);
      var line := if RouteCity(db.orders[o]).Some? then Some(StageLine(db.orders[o])) else None;
      OfferTame(out, o, {}, line, env, depth);
      TameThen(db, out, OfferToNextDriver(out, o, {}, line, env, depth).db, NOBODY);
    }
  }

  lemma ServeOneTame(db: Db, o: OrderId, env: Env, depth: nat)
    requires Sane(db) && o in db.orders
    ensures var s := ServeOne(db, o, env, depth); Tame(db, if s.Acted? then s.result.db else s.db, NOBODY)
  {
    hide Tame, Sane, GivenOut, Fallback, NotifyBusyDrivers, DriverInReach, TripInReach, SetPark, AsksFirst;
    AlikeTame(db, db, NOBODY);
    AlikeTame(db, db.(parked := SetPark(db.parked, o, Polling)), NOBODY);
    FallbackTame(db, o, true, env, depth);
    GivenOutTame(db, o, env, depth);
    NotifyTame(db, o, env);
    var n := NotifyBusyDrivers(db, o, env).db;
    TameSane(db, n, NOBODY);
    FallbackTame(n, o, true, env, depth);
    TameThen(db, n, Fallback(n, o, true, env, depth).db, NOBODY);
  }

  lemma {:induction false} ServeTame(db: Db, waiting: seq<OrderId>, env: Env, depth: nat)
    requires Sane(db)
    ensures Tame(db, Serve(db, waiting, env, depth).db, NOBODY)
    decreases |waiting|
  {
    hide Repair, Tame, Sane, ServeOne;
    AlikeTame(db, db, NOBODY);
    if waiting != [] {
      if waiting[0] !in db.orders {
        ServeTame(db, waiting[1..], env, depth);
      } else {
        var mid := Repair(db);
        RepairAlike(db);
        AlikeTame(db, mid, NOBODY);
        TameSane(db, mid, NOBODY);
        ServeOneTame(mid, waiting[0], env, depth);
        var s := ServeOne(mid, waiting[0], env, depth);
        var next := if s.Acted? then s.result.db else s.db;
        TameThen(db, mid, next, NOBODY);
        if s.Passed? {
          TameSane(db, next, NOBODY);
          ServeTame(next, waiting[1..], env, depth);
          TameThen(db, next, Serve(next, waiting[1..], env, depth).db, NOBODY);
        }
      }
    }
  }

  lemma PromoteTame(db: Db, env: Env, depth: nat)
    requires Sane(db)
    ensures Tame(db, TryPromote(db, env, depth).db, NOBODY)
  {
    hide Repair, Tame, Sane, Serve, PromptsStand;
    var polled := With(db.parked, Polling);
    var mid := if polled == [] then db else Repair(db);
    RepairAlike(db);
    AlikeTame(db, mid, NOBODY);
    var parked := if polled == [] then db.parked else PausePrompts(db.parked, None);
    var quiet := mid.(parked := parked);
    ThenAlike(db, mid, quiet, NOBODY);
    TameSane(db, quiet, NOBODY);
    ServeTame(quiet, With(parked, ParkWaiting), env, depth);
    TameThen(db, quiet, Serve(quiet, With(parked, ParkWaiting), env, depth).db, NOBODY);
  }

  // ---------------------------------------------------------------- after a fair stretch

  lemma ThenCheck(db: Db, mid: Db, env: Env, depth: nat, x: Waiver)
    requires Tame(db, mid, x)
    ensures Tame(db, TryPromote(mid, env, depth).db, x)
  {
    hide Tame, Sane, TryPromote;
    TameSane(db, mid, x);
    PromoteTame(mid, env, depth);
    TameMore(mid, TryPromote(mid, env, depth).db, x);
    TameThen(db, mid, TryPromote(mid, env, depth).db, x);
  }

  lemma ThenOffer(db: Db, mid: Db, o: OrderId, skip: set<DriverId>, line: Option<Line>, env: Env, depth: nat, x: Waiver)
    requires Tame(db, mid, x) && o in mid.orders
    ensures Tame(db, OfferToNextDriver(mid, o, skip, line, env, depth).db, x)
    ensures Tame(db, ThenPromote(OfferToNextDriver(mid, o, skip, line, env, depth), env, depth).db, x)
  {
    hide Tame, Sane, OfferToNextDriver, TryPromote;
    TameSane(db, mid, x);
    OfferTame(mid, o, skip, line, env, depth);
    var r := OfferToNextDriver(mid, o, skip, line, env, depth);
    TameMore(mid, r.db, x);
    TameThen(db, mid, r.db, x);
    ThenCheck(db, r.db, env, depth, x);
  }

  lemma ThenFallback(db: Db, mid: Db, o: OrderId, env: Env, depth: nat)
    requires Tame(db, mid, NOBODY) && o in mid.orders
    ensures Tame(db, Fallback(mid, o, false, env, depth).db, NOBODY)
    ensures Tame(db, ThenPromote(Fallback(mid, o, false, env, depth), env, depth).db, NOBODY)
  {
    hide Tame, Sane, Fallback, TryPromote;
    TameSane(db, mid, NOBODY);
    FallbackTame(mid, o, false, env, depth);
    var r := Fallback(mid, o, false, env, depth);
    TameThen(db, mid, r.db, NOBODY);
    ThenCheck(db, r.db, env, depth, NOBODY);
  }

  lemma {:induction false} ReleaseEachTame(db: Db, mid: Db, rows: seq<OrderId>, env: Env, depth: nat)
    requires Tame(db, mid, NOBODY)
    ensures Tame(db, ReleaseEach(mid, rows, env, depth).db, NOBODY)
    decreases |rows|
  {
    hide Tame, Sane, Fallback;
    if rows != [] {
      if rows[0] !in mid.orders {
        ReleaseEachTame(db, mid, rows[1..], env, depth);
      } else {
        var o := rows[0];
        var cleared := Put(mid, o, ClearRoute(mid.orders[o]));
        TameSane(db, mid, NOBODY);
        RowOfSane(mid, o);
        ThenRewrite(db, mid, cleared, o, ClearRoute(mid.orders[o]), NOBODY);
        ThenFallback(db, cleared, o, env, depth);
        var next := if Candidate(mid.orders[o].status) then Fallback(cleared, o, false, env, depth).db else cleared;
        ReleaseEachTame(db, next, rows[1..], env, depth);
      }
    }
  }

  lemma ReleaseTame(db: Db, mid: Db, trip: OrderId, env: Env, depth: nat)
    requires Tame(db, mid, NOBODY)
    ensures Tame(db, ReleaseRouteOffers(mid, trip, env, depth).db, NOBODY)
  {
    hide Tame, ReleaseEach, Routed;
    ReleaseEachTame(db, mid, Routed(mid.orders, trip, mid.nextOrder), env, depth);
  }

  // Giving a reservation back lets its driver go.
  lemma ReparkTame(db: Db, mid: Db, o: OrderId, env: Env, depth: nat)
    requires Tame(db, mid, NOBODY) && o in mid.orders && Pendent(mid.orders[o])
    ensures Tame(db, ReleaseReservation(mid, o, env, depth).db, NOBODY)
  {
    hide Tame, Sane, TryPromote;
    var row := Unreserved(mid.orders[o]);
    var free := Put(mid, o, row);
    ThenRewrite(db, mid, free, o, row, NOBODY);
    EnqueueTame(db, free, o, NOBODY);
    ThenAlike(db, Enqueue(free, o), Repark(mid, o), NOBODY);
    ThenCheck(db, Repark(mid, o), env, depth, NOBODY);
  }

  // The reserving driver is the owner already.
  lemma PromotedTame(db: Db, mid: Db, d: DriverId, env: Env)
    requires Tame(db, mid, NOBODY)
    ensures Tame(db, Handoff.Promote(mid, d, env), NOBODY)
  {
    hide Tame, Sane, ReservationOf;
    var r := ReservationOf(mid, d);
    if r.Some? {
      TameSane(db, mid, NOBODY);
      RowOfSane(mid, r.value);
      var row := Promoted(mid.orders[r.value], d, env.now);
      ThenRewrite(db, mid, Handoff.Promote(mid, d, env), r.value, row, NOBODY);
    } else {
      ThenAlike(db, mid, mid, NOBODY);
    }
  }

  // A row written at the end of a tame stretch, judged by what it was at the start.
  lemma ThenOverwrite(a: Db, b: Db, c: Db, o: OrderId, row: Order, x: Waiver)
    requires Tame(a, b, x) && o in a.orders && Rewrites(b, c, o, row)
    requires RowTame(a.orders[o], row, Leaves(x, o)) && RowSane(row)
    requires row.slot == a.orders[o].slot || row.slot.trip.None?
    ensures Tame(a, c, x)
  {
    forall k ensures OrderTame(a, c, x, k) { assert OrderTame(a, b, x, k); }
  }

  // ---------------------------------------------------------------- claims

  function OwnedRow(row: Order, d: DriverId, offline: bool): Order
  {
    row.(driver := Some(d), notes := row.notes.(claimedOffline := offline))
  }

  // Order o, owned by nobody else, goes to driver d; beyond that the step is tame,
  // but for the hands of the orders it loosens.
  ghost predicate TakenAs(db: Db, db': Db, o: OrderId, d: DriverId, offline: bool, loose: set<OrderId>)
  {
    && o in db.orders && (db.orders[o].driver.Some? ==> db.orders[o].driver == Some(d)) && !Closed(db.orders[o].status)
    && Tame(Put(db, o, OwnedRow(db.orders[o], d, offline)), db', LooseOnes(loose))
  }

  ghost predicate Taken(db: Db, db': Db, o: OrderId, d: DriverId, loose: set<OrderId>)
  {
    TakenAs(db, db', o, d, true, loose) || TakenAs(db, db', o, d, false, loose)
  }

  lemma ClaimTaken(db: Db, db': Db, o: OrderId, d: DriverId, row: Order, loose: set<OrderId>)
    requires Sane(db) && Rewrites(db, db', o, row) && !Closed(db.orders[o].status)
    requires db.orders[o].driver.Some? ==> db.orders[o].driver == Some(d)
    requires RowTame(OwnedRow(db.orders[o], d, row.notes.claimedOffline), row, Leaves(LooseOnes(loose), o))
    requires RowSane(row) && row.slot.trip.None?
    ensures Taken(db, db', o, d, loose)
  {
    var owned := Put(db, o, OwnedRow(db.orders[o], d, row.notes.claimedOffline));
    forall k ensures OrderTame(owned, db', LooseOnes(loose), k) { }
  }

  lemma TakenThen(a: Db, b: Db, c: Db, o: OrderId, d: DriverId, loose: set<OrderId>)
    requires Taken(a, b, o, d, loose) && Tame(b, c, NOBODY)
    ensures Taken(a, c, o, d, loose)
  {
    hide Tame;
    var offline := TakenAs(a, b, o, d, true, loose);
    TameMore(b, c, LooseOnes(loose));
    TameThen(Put(a, o, OwnedRow(a.orders[o], d, offline)), b, c, LooseOnes(loose));
  }

  lemma ThenTaken(a: Db, b: Db, c: Db, o: OrderId, d: DriverId, loose: set<OrderId>)
    requires Tame(a, b, LooseOnes(loose)) && Taken(b, c, o, d, loose) && o in a.orders && a.orders[o] == b.orders[o]
    ensures Taken(a, c, o, d, loose)
  {
    var row := OwnedRow(a.orders[o], d, TakenAs(b, c, o, d, true, loose));
    var x, y := Put(a, o, row), Put(b, o, row);
    var w := LooseOnes(loose);
    forall k ensures OrderTame(x, c, w, k) {
      assert OrderTame(a, b, w, k) && OrderTame(y, c, w, k);
      if k in c.orders && c.orders[k].slot.trip.Some? {
        assert OrderTame(a, b, w, c.orders[k].slot.trip.value);
      }
    }
  }

  lemma TakenSane(a: Db, b: Db, o: OrderId, d: DriverId, loose: set<OrderId>)
    requires Taken(a, b, o, d, loose)
    ensures Sane(b)
  {
    hide Tame, Sane;
    TameSane(Put(a, o, OwnedRow(a.orders[o], d, TakenAs(a, b, o, d, true, loose))), b, LooseOnes(loose));
  }

  // What a claim may do to any order k, the claimed one included.
  lemma TakenKeys(a: Db, b: Db, o: OrderId, d: DriverId, loose: set<OrderId>, k: OrderId)
    requires Taken(a, b, o, d, loose) && k in a.orders
    ensures k in b.orders && (k != o ==> RowTame(a.orders[k], b.orders[k], Leaves(LooseOnes(loose), k)))
    ensures o in b.orders
    ensures exists offline :: RowTame(OwnedRow(a.orders[o], d, offline), b.orders[o], Leaves(LooseOnes(loose), o))
  {
    hide RowTame;
    var offline := TakenAs(a, b, o, d, true, loose);
    TameKeys(Put(a, o, OwnedRow(a.orders[o], d, offline)), b, LooseOnes(loose), k);
    TameKeys(Put(a, o, OwnedRow(a.orders[o], d, offline)), b, LooseOnes(loose), o);
  }

  lemma TakenCard(a: Db, b: Db, o: OrderId, d: DriverId, loose: set<OrderId>, k: OrderId)
    requires Taken(a, b, o, d, loose) && k in b.orders
    ensures CardTame(a.orders, b.orders, k)
  {
    assert OrderTame(Put(a, o, OwnedRow(a.orders[o], d, TakenAs(a, b, o, d, true, loose))), b, LooseOnes(loose), k);
  }
}
