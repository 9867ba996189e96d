// What a new request, a personal selection, a corrected address and the end of patience
// do, told in the fields of the tables.
module Requests {
  import opened Options
  import opened DispatchState
  import opened OrderTable
  import opened DriverLine
  import opened Cascade
  import opened CascadeInv
  import opened CascadeDepth
  import opened Frames
  import opened PassengerQueue
  import opened Transactions
  import opened Trips
  import opened OfferSteps
  import opened ClaimSteps
  import opened PassengerSteps
  import opened PassengerSafety
  import opened Protocol
  import opened Asking
  import opened Wedging
  import opened Sending
  import opened Dispatched
  import opened Answers
  import opened Taking
  import opened TripSteps
  import opened CancelSafety
  import opened Endings

  // ---------------------------------------------------------------- new orders

  // The tables with a new row: nobody's, shown to nobody, nothing noted yet.
  function WithNew(db: Db, request: Request): (r: Db)
    ensures db.nextOrder in r.orders
  {
    db.(orders := db.orders[db.nextOrder :=
          Order(Created, request, None, None, false, None, false, RouteOffer(None, None, None, None), false,
                Notes(false, {}, {}, false, None, false, false))],
        nextOrder := db.nextOrder + 1)
  }

  lemma NewIsStep(db: Db, request: Request, env: Env, depth: nat)
    ensures AddOrder(db, request) == WithNew(db, request)
    ensures Attempt(db, NewOrder(request), env, depth) == CreateOrder(db, request, env, depth)
    ensures CreateOrder(db, request, env, depth).Done?
    ensures Step(db, NewOrder(request), env, depth) == CreateOrder(db, request, env, depth).db
  {
    hide Ending, Claiming, Refusing, OnTheRide, OnTheLine, Timing, Dispatch, OfferToNextDriver;
  }

  // Nobody has declined a new order, so it never goes round in a circle.
  lemma NewNotStuck(db: Db, o: OrderId, env: Env)
    requires o in db.orders && db.orders[o].notes.declined == {}
    ensures !Stuck(db, o, env)
  {
    hide HasWaiting, ClaimTrip;
  }

  // The cascade repairs the queue first; repairing it before that changes nothing.
  lemma RepairedFirst(db: Db, o: OrderId, line: Option<Line>, env: Env, depth: nat)
    requires RosterOk(db) && DistinctPositions(db.queue) && o in db.orders && Offerable(db.orders[o]) && depth > 0
    ensures OfferToNextDriver(Repair(db), o, {}, line, env, depth) == OfferToNextDriver(db, o, {}, line, env, depth)
  {
    hide RepairAll, RosterOk, DistinctPositions, HandleNoDriver, Pick;
    RepairIdempotent(db);
    RepairFrame(db);
  }

  // A new village order for which nobody waits in its village: the first trip that takes
  // it gets a card; otherwise Gornozavodsk is asked; otherwise it waits, parked.
  ghost predicate SentAway(added: Db, o: OrderId, env: Env, left: Order)
    requires o in added.orders
  {
    if CardOpen(added, o, env) then
      left.status == Queued && GotCard(added.orders, o, env, left.(status := added.orders[o].status))
    else if Wanted(added, o, Gorno) then
      && left.status == Searching && left.offered.Some? && First(added, left.offered.value, Gorno, {})
      && left.fallback && left.offerCard == (o in env.cards)
    else left == added.orders[o].(status := Queued, fallback := true)
  }

  lemma VillageEmpty(db: Db, o: OrderId, env: Env, depth: nat)
    requires Ready(db, o) && RouteCity(db.orders[o]).Some? && !db.orders[o].fallback && depth >= 2
    requires db.orders[o].notes.declined == {} && !Staffed(db, StageLine(db.orders[o])) && !db.orders[o].etaChosen
    ensures var r := ParkAndNotify(ParkedForm(db, o, db.orders[o]), o, env, depth);
      && r.Done? && o in r.db.orders && SentAway(db, o, env, r.db.orders[o])
      && (IsParked(r.db.parked, o) <==> r.db.orders[o].status == Queued)
  {
    hide Ready, ParkAndNotify, ParkedForm, HasWaiting, RouteOfferPossible, CardOpen, GotCard, StageLine, RouteCity;
    hide First, Wanted;
    ReadyParts(db, o);
    CardOpenIs(db, o, env);
    if RouteOfferPossible(db, o, env) {
      EmptyCard(db, o, env, depth);
    } else {
      NobodyNotified(db, o, env, depth);
      EmptyFalls(db, o, env, depth);
    }
  }

  lemma CardOpenIs(db: Db, o: OrderId, env: Env)
    requires Ready(db, o) && !db.orders[o].fallback && RouteCity(db.orders[o]).Some?
    requires !Staffed(db, StageLine(db.orders[o]))
    ensures CardOpen(db, o, env) <==> RouteOfferPossible(db, o, env)
  {
    hide Ready, HasWaiting, ClaimTrip, FreeFor, TakesCard, RosterOk, DistinctPositions;
    ReadyParts(db, o);
    StartsIs(db.orders[o]);
    VillageSome(db.orders[o]);
    WaitingIff(db, StageLine(db.orders[o]), {});
    ClaimIs(db, o);
  }

  lemma EmptyCard(db: Db, o: OrderId, env: Env, depth: nat)
    requires Ready(db, o) && RouteCity(db.orders[o]).Some? && !db.orders[o].fallback
    requires !Staffed(db, StageLine(db.orders[o])) && RouteOfferPossible(db, o, env)
    ensures var r := ParkAndNotify(ParkedForm(db, o, db.orders[o]), o, env, depth);
      && r.Done? && o in r.db.orders && r.db.orders[o].status == Queued && IsParked(r.db.parked, o)
      && GotCard(db.orders, o, env, r.db.orders[o].(status := db.orders[o].status))
  {
    hide Repair, HasWaiting, Ready, Fallback, ParkedForm, ClaimTrip, RosterOk, DistinctPositions, FirstToTake;
    ReadyParts(db, o);
    var row := db.orders[o];
    ParkedFormRow(db, o, row);
    ParkedFormAlike(db, o, row);
    var p := ParkedForm(db, o, row);
    assert p.parked[|db.parked|].order == o;
    ClaimIs(db, o);
    var t := ClaimTrip(db.orders, o, db.nextOrder).value;
    FormTrip(db, o, row, t);
  }

  lemma FormTrip(db: Db, o: OrderId, row: Order, t: OrderId)
    requires o in db.orders && t in db.orders && db.orders[o].driver.None? && FirstToTake(db.orders, t, o)
    ensures t != o && t in ParkedForm(db, o, row).orders && ParkedForm(db, o, row).orders[t] == db.orders[t]
    ensures db.orders[t].driver.Some?
  {
    hide RepairAll;
  }

  lemma EmptyFalls(db: Db, o: OrderId, env: Env, depth: nat)
    requires Ready(db, o) && RouteCity(db.orders[o]).Some? && !db.orders[o].fallback && depth >= 1
    requires db.orders[o].notes.declined == {} && !Staffed(db, StageLine(db.orders[o])) && !db.orders[o].etaChosen
    requires !CardOpen(db, o, env)
    ensures var r := Fallback(ParkedForm(db, o, db.orders[o]), o, true, env, depth);
      && r.Done? && o in r.db.orders && SentAway(db, o, env, r.db.orders[o])
      && (IsParked(r.db.parked, o) <==> r.db.orders[o].status == Queued)
  {
    hide OfferToNextDriver, Repair, HasWaiting, Parking, Unparked, Pick, CardOpen, First, FreeFor;
    hide EnterFallback, RosterOk, DistinctPositions, ParkedForm, Ready, IsParked, Stands;
    ReadyParts(db, o);
    var row := db.orders[o];
    assert row.(etaChosen := false) == row;
    ParkedFormRow(db, o, row);
    ParkingRests(db, o, row);
    ParkedFormAlike(db, o, row);
    WaitingIff(db, Gorno, {});
    if Staffed(db, Gorno) {
      EntersFallback(db, o, env, depth);
      GornoAsks(db, o, env, depth);
      EmptyAsked(db, o, env, OfferToNextDriver(SearchForm(db, o, true), o, {}, Some(Gorno), env, depth).db);
    } else {
      EmptyRests(db, o, env, depth);
    }
  }

  lemma EmptyAsked(db: Db, o: OrderId, env: Env, r: Db)
    requires Ready(db, o) && db.orders[o].notes.declined == {} && !CardOpen(db, o, env) && Staffed(db, Gorno)
    requires o in r.orders && r.orders[o].offered.Some? && Stands(db, r, o, r.orders[o].offered.value, env)
    requires r.orders[o].offered == Pick(Repair(db), Gorno, {}) && r.orders[o].status == Searching
    requires r.orders[o].fallback
    ensures SentAway(db, o, env, r.orders[o]) && !IsParked(r.parked, o)
  {
    hide Repair, HasWaiting, Pick, CardOpen, FreeFor, First, Ready;
    ReadyParts(db, o);
    WaitingIff(db, Gorno, {});
    SameQueueParks(db.parked, PausePrompts(db.parked, Some(o)));
  }

  lemma EmptyRests(db: Db, o: OrderId, env: Env, depth: nat)
    requires Ready(db, o) && RouteCity(db.orders[o]).Some? && !db.orders[o].etaChosen && !CardOpen(db, o, env)
    requires db.orders[o].notes.declined == {} && !Staffed(db, Gorno)
    ensures var r := EnterFallback(ParkedForm(db, o, db.orders[o]), o, env, depth);
      && r.Done? && o in r.db.orders && SentAway(db, o, env, r.db.orders[o]) && r.db.orders[o].status == Queued
      && IsParked(r.db.parked, o)
  {
    hide OfferToNextDriver, Repair, HasWaiting, RosterOk, DistinctPositions;
    hide ParkedForm, Ready, FreeFor, CardOpen, First;
    ReadyParts(db, o);
    var row := db.orders[o];
    WaitingIff(db, Gorno, {});
    ParkedFormRow(db, o, row);
    ParkedFormRow(db, o, row.(fallback := true));
    ParkedFormAlike(db, o, row.(fallback := true));
    ParkedFormFlag(db, o, row);
    var p := ParkedForm(db, o, row.(fallback := true));
    assert p.parked[|db.parked|].order == o;
  }

  lemma ParkFormIs(added: Db, o: OrderId)
    requires o in added.orders && !IsParked(added.parked, o)
    ensures Enqueue(Repair(added), o) == ParkedForm(added, o, added.orders[o])
  {
    hide RepairAll;
    RepairFrame(added);
  }

  lemma DispatchIs(added: Db, o: OrderId, env: Env, depth: nat)
    requires Ready(added, o) && depth > 0 && !added.orders[o].fallback
    ensures var row := added.orders[o]; var city := RouteCity(row);
      Dispatch(added, o, env, depth) ==
        if city.None? then OfferToNextDriver(added, o, {}, None, env, depth)
        else if Staffed(added, StageLine(row)) then OfferToNextDriver(added, o, {}, Some(StageLine(row)), env, depth)
        else ParkAndNotify(ParkedForm(added, o, row), o, env, depth)
  {
    hide Ready, OfferToNextDriver, Repair, HasWaiting, ParkAndNotify, ParkedForm, Enqueue;
    ReadyParts(added, o);
    StageOf(added.orders[o]);
    ParkFormIs(added, o);
    RepairFrame(added);
    RepairedFirst(added, o, None, env, depth);
    if RouteCity(added.orders[o]).Some? {
      RepairedFirst(added, o, Some(VillageLine(RouteCity(added.orders[o]).value)), env, depth);
    }
  }

  // A new request is there afterwards, nobody's, and has been dispatched: a dispatcher's,
  // an ordinary one, and one somebody in its village waits for, as by the cascade; any
  // other one as by the first look for a driver. Nothing else happens to any order or
  // driver.
  lemma NewOrderDoes(db: Db, request: Request, home: Line, env: Env, depth: nat)
    requires Inv(db) && depth >= 2
    requires Home(WithNew(db, request.(requested := None)).orders[db.nextOrder], home)
    ensures db.nextOrder !in db.orders
    ensures var r := Step(db, NewOrder(request), env, depth); var o := db.nextOrder;
      var added := WithNew(db, request.(requested := None));
      && o in r.orders && r.orders[o].driver.None? && r.nextOrder == o + 1 && r.drivers == db.drivers
      && (if request.byDispatcher || (forall v :: !StartsIn(added.orders[o], v))
             || (exists d :: FreeFor(added, d, home))
          then Settles(added, o, home, env, r.orders[o])
          else SentAway(added, o, env, r.orders[o]))
      && (IsParked(r.parked, o) <==> r.orders[o].status == Queued)
      && (forall a :: a in db.orders ==> a in r.orders && r.orders[a] == db.orders[a])
  {
    hide InvDuring, OfferToNextDriver, Dispatch, Ready, Settles, SentAway;
    hide Home, Step, Attempt, FreeFor, IsParked, Stuck;
    hide StageLine, RouteCity, StartsIn, ParkAndNotify, ParkedForm, HasWaiting;
    var q, o := request.(requested := None), db.nextOrder;
    var added := WithNew(db, q);
    NewIsStep(db, q, env, depth);
    NewIsStep(db, request, env, depth);
    AddOrderKeeps(db, q);
    ReadyOf(added, o, None);
    ReadyParts(added, o);
    HomeIs(added.orders[o], home);
    VillageSome(added.orders[o]);
    WaitingIff(added, home, {});
    NewDispatched(db, request, home, env, depth);
    CreateOrderSound(db, request, env, depth);
    NewFrame(db, request, env, depth);
  }

  lemma NewDispatched(db: Db, request: Request, home: Line, env: Env, depth: nat)
    requires depth >= 2
    requires var added := WithNew(db, request.(requested := None)); var o := db.nextOrder;
      Ready(added, o) && Home(added.orders[o], home)
    ensures var r := CreateOrder(db, request, env, depth).db; var o := db.nextOrder;
      var added := WithNew(db, request.(requested := None));
      && o in r.orders
      && (if request.byDispatcher || RouteCity(added.orders[o]).None? || Staffed(added, home)
          then Settles(added, o, home, env, r.orders[o])
          else SentAway(added, o, env, r.orders[o]))
      && (IsParked(r.parked, o) <==> r.orders[o].status == Queued)
      && OthersSame(added, r, o)
  {
    hide OfferToNextDriver, Dispatch, Ready, Settles, SentAway, Home, IsParked, Stuck, StageLine, RouteCity;
    hide ParkAndNotify, ParkedForm, HasWaiting, CreateOrder, OthersSame;
    var o := db.nextOrder;
    var added := WithNew(db, request.(requested := None));
    ReadyParts(added, o);
    HomeIs(added.orders[o], home);
    NewNotStuck(added, o, env);
    DispatchIs(added, o, env, depth);
    NewCases(db, request, env, depth);
    if request.byDispatcher || RouteCity(added.orders[o]).None? || Staffed(added, home) {
      var line: Option<Line> :=
        if request.byDispatcher || RouteCity(added.orders[o]).None? then None else Some(home);
      UnstuckEnds(added, o, {}, line, env, depth);
      CascadeLeaves(added, o, home, line, env, depth);
      OfferAlone(added, o, {}, line, env, depth);
    } else {
      VillageEmpty(added, o, env, depth);
      FormAlone(added, o, env, depth);
    }
  }

  // Which of the routines dispatches it.
  lemma NewCases(db: Db, request: Request, env: Env, depth: nat)
    ensures var added := WithNew(db, request.(requested := None)); var o := db.nextOrder;
      var r := if request.byDispatcher then OfferToNextDriver(added, o, {}, None, env, depth)
               else Dispatch(added, o, env, depth);
      r.Done? ==> CreateOrder(db, request, env, depth).db == r.db
  {
    hide OfferToNextDriver, Dispatch, Enqueue;
  }

  lemma FormAlone(added: Db, o: OrderId, env: Env, depth: nat)
    requires Ready(added, o)
    ensures OthersSame(added, ParkAndNotify(ParkedForm(added, o, added.orders[o]), o, env, depth).db, o)
  {
    hide ParkAndNotify, OthersSame;
    var p := ParkedForm(added, o, added.orders[o]);
    FormOthers(added, o);
    ParkAlone(p, o, env, depth);
    SameThen(added, p, ParkAndNotify(p, o, env, depth).db, o);
  }

  lemma FormOthers(added: Db, o: OrderId)
    requires o in added.orders
    ensures OthersSame(added, ParkedForm(added, o, added.orders[o]), o)
  {
    hide RepairAll;
  }

  lemma NewFrame(db: Db, request: Request, env: Env, depth: nat)
    requires Inv(db)
    ensures var r := CreateOrder(db, request, env, depth).db; r.nextOrder == db.nextOrder + 1 && r.drivers == db.drivers
  {
    hide InvDuring, OfferToNextDriver, Dispatch, Calm, Moves, Enqueue;
    var q, o := request.(requested := None), db.nextOrder;
    var added := AddOrder(db, q);
    AddOrderKeeps(db, q);
    if request.byDispatcher {
      OfferKeeps(added, o, {}, None, env, depth, None);
      MovesFrame(added, OfferToNextDriver(added, o, {}, None, env, depth).db, o);
    } else {
      DispatchKeeps(added, o, env, depth);
      CalmedFrame(added, Dispatch(added, o, env, depth).db);
    }
    EnqueueKeeps(added, o, None);
    MovesFrame(added, Enqueue(added, o), o);
  }

  lemma MovesFrame(db: Db, r: Db, o: OrderId)
    requires Moves(db, r, o)
    ensures r.nextOrder == db.nextOrder && r.drivers == db.drivers
  {
  }

  lemma CalmedFrame(db: Db, r: Db)
    requires Calm(db, r)
    ensures r.nextOrder == db.nextOrder && r.drivers == db.drivers
  {
  }

  // ---------------------------------------------------------------- personal selection

  // The earliest hold of the passenger, or on the driver, among those numbered below n.
  ghost predicate Earliest(holds: map<nat, Hold>, passenger: Option<PassengerId>, driver: Option<DriverId>, h: nat)
  {
    && h in holds && Fits(holds[h], passenger, driver)
    && (forall x: nat :: x in holds && Fits(holds[x], passenger, driver) ==> h <= x)
  }

  predicate Fits(hold: Hold, passenger: Option<PassengerId>, driver: Option<DriverId>)
  {
    (passenger.Some? ==> hold.passenger == passenger.value) && (driver.Some? ==> hold.driver == driver.value)
  }

  lemma {:induction false} HoldIs(holds: map<nat, Hold>, passenger: Option<PassengerId>, driver: Option<DriverId>,
        n: nat)
    ensures var h := HoldBelow(holds, passenger, driver, n);
      && (h.Some? ==> h.value < n && Earliest(holds, passenger, driver, h.value))
      && (h.None? ==> forall x: nat :: x in holds && Fits(holds[x], passenger, driver) ==> x >= n)
  {
    if n > 0 { HoldIs(holds, passenger, driver, n - 1); }
  }

  // A hold dropped: its driver waits again, unless an offer lies before him.
  function Dropped(db: Db, h: nat): (r: Db)
    requires h in db.holds
  {
    var d := db.holds[h].driver;
    var free := d in db.queue && db.queue[d].status == Offered
                && !(exists o :: o in db.orders && db.orders[o].status == Searching && db.orders[o].offered == Some(d));
    db.(holds := db.holds - {h}, queue := if free then db.queue[d := db.queue[d].(status := Waiting)] else db.queue)
  }

  lemma DroppedIs(db: Db, h: nat)
    requires h in db.holds
    ensures DropHold(db, h) == Dropped(db, h)
  {
    UnofferedIs(db, db.holds[h].driver);
  }

  // May the passenger choose driver d? He waits in a line, is shown, may work and has
  // nothing to do.
  ghost predicate Choosable(db: Db, d: DriverId)
  {
    && d in db.drivers && d in db.queue && db.queue[d].status == Waiting
    && var him := db.drivers[d];
    && him.isDriver && him.onLine && him.status == Online && !him.blocked && him.carReady
    && !HasClaim(db.orders, d, Ride)
    && (forall a :: a in db.orders ==> !(db.orders[a].status == Searching && db.orders[a].offered == Some(d)))
  }

  lemma ChoosableIs(db: Db, d: DriverId)
    requires Inv(db)
    ensures Selectable(db, d) <==> Choosable(db, d)
    ensures MenuOpen(db, d) <==>
              && d in db.drivers && !HasClaim(db.orders, d, Ride)
              && (forall a :: a in db.orders ==> !(db.orders[a].status == Searching && db.orders[a].offered == Some(d)))
  {
    hide InvDuring, RideOf, OfferOf, HasClaim;
    RideOfIsRide(db, d, None);
    OfferOfIsOffer(db, d);
    UnofferedIs(db, d);
  }

  // Selecting a driver gives up the passenger's earlier selection, and holds the driver
  // if he may be chosen. No order and no driver changes.
  lemma SelectDoes(db: Db, p: PassengerId, d: DriverId, prior: Option<nat>, env: Env, depth: nat)
    requires Inv(db) && (forall h :: h in db.holds ==> h < db.nextHold)
    requires prior.Some? ==> Earliest(db.holds, Some(p), None, prior.value)
    requires prior.None? ==> forall h :: h in db.holds ==> db.holds[h].passenger != p
    ensures var r := Step(db, Select(p, d), env, depth);
      var freed := if prior.Some? then Dropped(db, prior.value) else db;
      r == if !Choosable(freed, d) then freed
           else freed.(queue := freed.queue[d := freed.queue[d].(status := Offered)],
                       holds := freed.holds[db.nextHold := Hold(p, d)], nextHold := db.nextHold + 1)
  {
    hide InvDuring, Ending, Claiming, Refusing, OnTheRide, OnTheLine, Timing, DropHold, Dropped, Selectable, Choosable;
    HoldIs(db.holds, Some(p), None, db.nextHold);
    var h := HoldBelow(db.holds, Some(p), None, db.nextHold);
    assert h == prior;
    if prior.Some? {
      DroppedIs(db, prior.value);
      DropHoldKeeps(db, prior.value);
    }
    DroppedSame(db, prior);
    var freed := if prior.Some? then Dropped(db, prior.value) else db;
    ChoosableIs(freed, d);
    ChoosableQueued(freed, d);
  }

  lemma DroppedSame(db: Db, prior: Option<nat>)
    requires prior.Some? ==> prior.value in db.holds
    ensures prior.Some? ==> Dropped(db, prior.value).nextHold == db.nextHold
  {
  }

  lemma ChoosableQueued(db: Db, d: DriverId)
    ensures Choosable(db, d) ==> d in db.queue
  {
  }

  // Dropping a selection frees its driver, and the opportunity check runs.
  lemma DropDoes(db: Db, h: nat, env: Env, depth: nat)
    ensures var t := if h in db.holds then TryPromote(Dropped(db, h), env, depth) else Done(db, false);
      Attempt(db, DropSelection(h), env, depth) == t
      && Step(db, DropSelection(h), env, depth) == if t.Done? then t.db else db
  {
    hide Ending, Claiming, Refusing, OnTheRide, OnTheLine, Timing, TryPromote, DropHold, Dropped;
    if h in db.holds { DroppedIs(db, h); }
  }

  // The text of a personal request: if the driver is still held for it, he is offered
  // the new order, which is his alone; otherwise only the hold goes.
  lemma SubmitDoes(db: Db, h: nat, request: Request, env: Env, depth: nat)
    requires Inv(db) && h in db.holds
    ensures var r := Step(db, Submit(h, request), env, depth); var d := db.holds[h].driver; var o := db.nextOrder;
      var held := d in db.drivers && d in db.queue && db.queue[d].status == Offered && db.drivers[d].onLine
                  && db.drivers[d].status == Online && !HasClaim(db.orders, d, Ride)
                  && (forall a :: a in db.orders ==>
                        !(db.orders[a].status == Searching && db.orders[a].offered == Some(d)));
      if !held then r == Dropped(db, h)
      else
        && o !in db.orders && r.drivers == db.drivers && r.queue == db.queue && r.holds == db.holds - {h}
        && r.nextOrder == o + 1 && r.parked == PausePrompts(db.parked, Some(o))
        && r.orders == db.orders[o := WithNew(db, request.(requested := Some(d))).orders[o].(
             status := Searching, offered := Some(d), offerCard := o in env.cards)]
  {
    hide InvDuring, Ending, Claiming, Refusing, OnTheRide, OnTheLine;
    hide Timing, DropHold, Dropped, RideOf, OfferOf, HasClaim;
    hide PausePrompts;
    var d, o := db.holds[h].driver, db.nextOrder;
    DroppedIs(db, h);
    ChoosableIs(db, d);
    assert o !in db.orders by { AddOrderKeeps(db, request); }
    if d in db.queue { assert db.queue[d := db.queue[d].(status := db.queue[d].status)] == db.queue; }
  }

  // ---------------------------------------------------------------- corrections and expiries

  // A new address for an order nobody owns starts its dispatch afresh: before the
  // fallback, with nobody excluded from cards, out of the passenger queue. Whoever has
  // declined it has still declined it.
  lemma NewAddressDoes(db: Db, o: OrderId, route: Route, home: Line, env: Env, depth: nat)
    requires Inv(db) && o in db.orders && db.orders[o].driver.None? && !Closed(db.orders[o].status) && depth >= 2
    requires Attempt(db, NewAddress(o, route), env, depth).Done?
    requires var row := db.orders[o]; Home(row.(request := row.request.(route := route), fallback := false), home)
    ensures var r := Step(db, NewAddress(o, route), env, depth); var row := db.orders[o];
      var anew := row.(status := Searching, request := row.request.(route := route), fallback := false, offered := None,
                       slot := NO_ROUTE_OFFER, notes := row.notes.(autoExcluded := {}));
      && o in r.orders && r.drivers == db.drivers
      && Settles(db.(orders := db.orders[o := anew], parked := Unpark(db.parked, o)), o, home, env, r.orders[o])
  {
    hide InvDuring, OfferToNextDriver, Settles, Home, Step, Attempt, Unpark, RowOk, Calm;
    AddressIsStep(db, o, route, env, depth);
    RowPartsOf(db, o, None);
    UnownedRow(db, o);
    var row := Readdressed(db.orders[o], route);
    ReaddressedRow(db.orders[o], route);
    UnparkLeavesOk(db, o, row);
    FreeRow(db, o, row, Unpark(db.parked, o), None);
    var free := Put(db, o, row).(parked := Unpark(db.parked, o));
    UnparkGone(db.parked, o);
    SameHome(db.orders[o].(request := db.orders[o].request.(route := route), fallback := false), row, home);
    AfterCascade(free, o, home, env, depth, None);
    CalmedFrame(free, OfferToNextDriver(free, o, {}, None, env, depth).db);
  }

  lemma UnownedRow(db: Db, o: OrderId)
    requires Inv(db) && o in db.orders && db.orders[o].driver.None? && !Closed(db.orders[o].status)
    ensures RowOk(db.orders[o]) && db.orders[o].reserved.None? && !Riding(db.orders[o].status)
    ensures db.orders[o].status != ParallelAssigned
    ensures Holder(db.orders[o]).Some? ==> Holder(db.orders[o]).value.kind == Offer
  {
    assert RowOk(db.orders[o]);
  }

  lemma ReaddressedRow(row: Order, route: Route)
    requires RowOk(row) && row.driver.None? && !Closed(row.status)
    ensures RowOk(Readdressed(row, route)) && Holder(Readdressed(row, route)).None?
  {
  }

  lemma AddressIsStep(db: Db, o: OrderId, route: Route, env: Env, depth: nat)
    requires o in db.orders
    ensures var t := OfferToNextDriver(Put(db, o, Readdressed(db.orders[o], route)).(parked := Unpark(db.parked, o)),
                                       o, {}, None, env, depth);
      Attempt(db, NewAddress(o, route), env, depth) == t
      && Step(db, NewAddress(o, route), env, depth) == if t.Done? then t.db else db
  {
    hide Ending, Claiming, Refusing, OnTheRide, OnTheLine, Timing, OfferToNextDriver, Unpark;
  }

  // A dispatcher's order nobody has is cancelled when its time is up, whoever is looking
  // at it.
  lemma DispatcherExpiryDoes(db: Db, o: OrderId, env: Env, depth: nat)
    requires Inv(db) && o in db.orders
    ensures var r := Step(db, DispatcherOrderExpires(o), env, depth); var row := db.orders[o];
      if !row.request.byDispatcher || row.driver.Some? || row.reserved.Some? || Closed(row.status) then r == db
      else
        && o in r.orders && r.orders[o] == row.(status := Cancelled, offered := None, slot := NO_ROUTE_OFFER)
        && r.drivers == db.drivers && r.parked == Unpark(db.parked, o)
        && (row.offered.Some? ==> row.offered.value in r.queue && r.queue[row.offered.value].status == Waiting)
  {
    hide InvDuring, Step, Attempt, WithdrawOffer, Unpark, RowOk, DispatcherUnclaimed;
    ExpiryIsStep(db, o, env, depth);
    UnclaimedIs(db, o);
    if db.orders[o].driver.None? && !Closed(db.orders[o].status) {
      var row := ClearRoute(db.orders[o]).(status := Cancelled);
      var c := Put(db, o, row).(parked := Unpark(db.parked, o));
      WithdrawIs(db, c, o, row, env);
      WithdrawParks(c, o);
    }
  }

  lemma UnclaimedIs(db: Db, o: OrderId)
    requires Inv(db) && o in db.orders
    ensures var row := db.orders[o];
      DispatcherUnclaimed(db, o) ==
        if !row.request.byDispatcher || row.driver.Some? || row.reserved.Some? || Closed(row.status) then db
        else WithdrawOffer(Put(db, o, ClearRoute(row).(status := Cancelled)).(parked := Unpark(db.parked, o)), o)
  {
    hide InvDuring, WithdrawOffer, Unpark, RowOk;
    if db.orders[o].driver.None? && !Closed(db.orders[o].status) { UnownedRow(db, o); }
  }

  lemma ExpiryIsStep(db: Db, o: OrderId, env: Env, depth: nat)
    ensures Step(db, DispatcherOrderExpires(o), env, depth) == DispatcherUnclaimed(db, o)
    ensures Step(db, ChatOrderExpires(o), env, depth) == ChatTimeout(db, o)
  {
    hide Requesting, Ending, Claiming, Refusing, OnTheRide, OnTheLine, DispatcherUnclaimed, ChatTimeout;
    TimingIs(db, DispatcherOrderExpires(o), env, depth);
    TimingIs(db, ChatOrderExpires(o), env, depth);
  }

  // A request in the chat is cancelled when its own time is up.
  lemma ChatExpiryDoes(db: Db, o: OrderId, env: Env, depth: nat)
    requires o in db.orders
    ensures Step(db, ChatOrderExpires(o), env, depth) ==
              if db.orders[o].status != ChatSearch then db
              else db.(orders := db.orders[o := db.orders[o].(status := Cancelled)])
  {
    hide Step;
    ExpiryIsStep(db, o, env, depth);
  }
}
