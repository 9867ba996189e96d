// What dispatch does to an order, told in the fields of the tables: who counts as
// waiting, who is asked, which trip gets a card, who goes to the requests chat, and
// which passengers are asked whether they still want to ride.
module Dispatched {
  import opened Options
  import opened DispatchState
  import opened OrderTable
  import opened DriverLine
  import opened Cascade
  import opened CascadeInv
  import opened CascadeDepth
  import opened Frames
  import opened PassengerQueue
  import opened Asking
  import opened Wedging

  // ---------------------------------------------------------------- who waits

  // No order is in front of the driver or on his hands.
  ghost predicate Unbusy(db: Db, d: DriverId)
  {
    forall o :: o in db.orders ==>
      var row := db.orders[o];
      && !(row.status == Searching && row.offered == Some(d))
      && !(row.status in {Assigned, Arrived, InProgress, ParallelAssigned} && row.driver == Some(d))
      && !(row.status == ParallelAssigned && row.reserved == Some(d))
  }

  // The line he stands on once the queue has been repaired: a free driver whom no
  // passenger holds stands on the line he has chosen, if it is active, and otherwise
  // keeps the line of his row; everybody else needs a waiting row of that line.
  ghost predicate StandsOn(db: Db, d: DriverId, line: Line)
    requires d in db.drivers
  {
    var him := db.drivers[d];
    if him.isDriver && (forall h :: h in db.holds ==> db.holds[h].driver != d) then
      if him.currentLine.Some? && him.currentLine.value in db.lines then him.currentLine.value == line
      else d in db.queue && db.queue[d].line == Some(line)
    else d in db.queue && db.queue[d].status == Waiting && db.queue[d].line == Some(line)
  }

  // A driver who can be asked about an order of the line, whoever repaired the queue
  // last.
  ghost predicate FreeFor(db: Db, d: DriverId, line: Line)
  {
    && line in db.lines && d in db.drivers
    && db.drivers[d].onLine && db.drivers[d].status == Online && !db.drivers[d].blocked
    && Unbusy(db, d) && StandsOn(db, d, line)
  }

  lemma UnbusyIs(db: Db, d: DriverId)
    ensures Unbusy(db, d) <==> !OfferedTo(db, d) && !Committed(db.orders, d)
  {
    if Unbusy(db, d) {
      forall o ensures !LiveOffer(db.orders, o, d) { }
    }
    if !OfferedTo(db, d) {
      forall o | o in db.orders ensures !(db.orders[o].status == Searching && db.orders[o].offered == Some(d)) {
        assert !LiveOffer(db.orders, o, d);
      }
    }
  }

  lemma EligibleIs(db: Db, line: Line, excluded: set<DriverId>, d: DriverId)
    ensures Eligible(db, line, excluded, d) <==>
              && d in db.queue && d in db.drivers && db.queue[d] == QueueRow(Waiting, Some(line), db.queue[d].position)
              && line in db.lines && db.drivers[d].onLine && db.drivers[d].status == Online && !db.drivers[d].blocked
              && !OfferedTo(db, d) && !Committed(db.orders, d) && d !in excluded
  {
    hide OfferedTo;
  }

  lemma EngagedIs(db: Db, d: DriverId)
    ensures Engaged(db, d) <==>
              Committed(db.orders, d) || OfferedTo(db, d) || exists h :: h in db.holds && db.holds[h].driver == d
  {
    hide OfferedTo;
  }

  lemma FreeIsEligible(db: Db, d: DriverId, line: Line, excluded: set<DriverId>)
    requires RosterOk(db) && DistinctPositions(db.queue)
    ensures Eligible(Repair(db), line, excluded, d) <==> FreeFor(db, d, line) && d !in excluded
  {
    hide Repair, RosterOk, DistinctPositions, OfferedTo, Committed, Unbusy, Eligible, Engaged;
    RepairDoes(db);
    RepairFrame(db);
    UnbusyIs(db, d);
    EngagedIs(db, d);
    CommittedIs(db, d);
    EligibleIs(Repair(db), line, excluded, d);
    assert d in Unbound(db) <==> Repairable(db, d);
  }

  // The repair gives every driver who is shown as free, and whom nothing and nobody
  // holds, a waiting row: of his own line, if it is active, and otherwise of the line he
  // stood on; at his old place, or behind everybody. Nobody else's row changes.
  lemma RepairLeaves(db: Db, d: DriverId)
    requires RosterOk(db) && DistinctPositions(db.queue)
    ensures var q := Repair(db).queue;
      var free := d in db.drivers && db.drivers[d].onLine && db.drivers[d].status == Online && db.drivers[d].isDriver
                  && Unbusy(db, d) && (forall h :: h in db.holds ==> db.holds[h].driver != d);
      if !free then (d in q <==> d in db.queue) && (d in q ==> q[d] == db.queue[d])
      else
        && d in q && q[d].status == Waiting
        && (d in db.queue ==> q[d].position == db.queue[d].position)
        && (d !in db.queue ==> forall x :: x in db.queue ==> db.queue[x].position < q[d].position)
        && var own := db.drivers[d].currentLine;
        q[d].line == (if own.Some? && own.value in db.lines then own
                      else if d in db.queue then db.queue[d].line else None)
  {
    hide Repair, OfferedTo, Committed, Unbusy, Engaged, MaxPosition;
    RepairDoes(db);
    UnbusyIs(db, d);
    EngagedIs(db, d);
    forall x | x in db.queue ensures db.queue[x].position <= MaxPosition(db) { MaxPositionBounds(db, x); }
    assert d in Unbound(db) <==> Repairable(db, d);
  }

  // The first of them: nobody else of them has a place before his.
  ghost predicate First(db: Db, d: DriverId, line: Line, excluded: set<DriverId>)
  {
    && FreeFor(db, d, line) && d !in excluded
    && (forall e :: FreeFor(db, e, line) && e !in excluded && e in db.queue ==>
          d in db.queue && db.queue[d].position <= db.queue[e].position)
  }

  // Somebody waits on a line for an order exactly if such a driver is there, and the
  // first of them is taken.
  lemma WaitingIff(db: Db, line: Line, excluded: set<DriverId>)
    requires RosterOk(db) && DistinctPositions(db.queue)
    ensures HasWaiting(db, line, excluded) <==> exists d :: FreeFor(db, d, line) && d !in excluded
    ensures var p := Pick(Repair(db), line, excluded); p.Some? ==> First(db, p.value, line, excluded)
  {
    hide Repair, RosterOk, DistinctPositions, Eligible, FreeFor;
    RepairDoes(db);
    PickIsFirst(Repair(db), line, excluded);
    forall d ensures Eligible(Repair(db), line, excluded, d) <==> FreeFor(db, d, line) && d !in excluded {
      FreeIsEligible(db, d, line, excluded);
    }
    forall e | e in db.queue ensures db.queue[e].position <= MaxPosition(db) {
      MaxPositionBounds(db, e);
    }
    var p := Pick(Repair(db), line, excluded);
    if p.Some? {
      InQueue(Repair(db), line, excluded, p.value);
      forall e | FreeFor(db, e, line) && e !in excluded && e in db.queue
        ensures p.value in db.queue && db.queue[p.value].position <= db.queue[e].position
      {
        assert Eligible(Repair(db), line, excluded, e);
        RepairedPlaces(db, p.value, e);
      }
    }
  }

  lemma RepairedPlaces(db: Db, d: DriverId, e: DriverId)
    requires Repaired(db, Unbound(db), Repair(db).queue) && e in db.queue && d in Repair(db).queue
    requires e in Repair(db).queue && Repair(db).queue[d].position <= Repair(db).queue[e].position
    requires db.queue[e].position <= MaxPosition(db)
    ensures d in db.queue && db.queue[d].position <= db.queue[e].position
  {
    hide Repair;
  }

  // ---------------------------------------------------------------- cards

  // The village an order is collected in: the origin named in its text, or else a
  // village among the first words of it.
  ghost predicate StartsIn(row: Order, v: Village)
  {
    var route := row.request.route;
    route.origin == Some(v) || (route.origin.None? && route.firstTwo == Some(v))
  }

  lemma StartsIs(row: Order)
    ensures forall v :: StartsIn(row, v) <==> RouteCity(row) == Some(v)
    ensures forall v :: StartsIn(row, v) ==> StageLine(row) == if row.fallback then Gorno else VillageLine(v)
    ensures (forall v :: !StartsIn(row, v)) ==> StageLine(row) == Gorno && RouteCity(row).None?
  {
    if RouteCity(row).Some? { assert StartsIn(row, RouteCity(row).value); }
  }

  // Order t is a ride on its way to the village of order o, without a way back of its
  // own; its driver may still be offered orders, was not offered this one before, has
  // nothing reserved and no card for another order.
  ghost predicate TakesCard(orders: Orders, t: OrderId, o: OrderId)
    requires o in orders
  {
    && t in orders
    && var trip, row := orders[t], orders[o];
    && trip.status in {Assigned, Arrived, InProgress} && trip.driver.Some? && trip.notes.departed.Some?
    && !trip.notes.autoOffersDisabled && trip.driver.value !in row.notes.autoExcluded
    && trip.request.route.destination.Some? && StartsIn(row, trip.request.route.destination.value)
    && trip.request.route.tripOrigin.None? && !trip.request.route.returnIntent
    && (forall x :: x in orders && orders[x].reserved == trip.driver ==> orders[x].status != ParallelAssigned)
    && (forall x :: x in orders && x != o ==> orders[x].slot.driver != trip.driver)
  }

  lemma TakesIs(orders: Orders, t: OrderId, o: OrderId)
    requires o in orders
    ensures TripEligible(orders, t, o) <==> TakesCard(orders, t, o)
  {
    StartsIs(orders[o]);
  }

  // Of those trips the one that departed first.
  ghost predicate FirstToTake(orders: Orders, t: OrderId, o: OrderId)
    requires o in orders
  {
    && TakesCard(orders, t, o)
    && (forall a :: TakesCard(orders, a, o) && a != t ==>
          || orders[t].notes.departed.value < orders[a].notes.departed.value
          || (orders[t].notes.departed == orders[a].notes.departed && t < a))
  }

  lemma ClaimIs(db: Db, o: OrderId)
    requires RosterOk(db) && o in db.orders
    ensures var t := ClaimTrip(db.orders, o, db.nextOrder);
      if t.Some? then FirstToTake(db.orders, t.value, o) else forall a :: !TakesCard(db.orders, a, o)
  {
    hide TripEligible, TakesCard;
    forall a: OrderId ensures TripEligible(db.orders, a, o) <==> TakesCard(db.orders, a, o) {
      TakesIs(db.orders, a, o);
    }
    var t := ClaimTrip(db.orders, o, db.nextOrder);
    forall a: OrderId | TakesCard(db.orders, a, o)
      ensures a in db.orders && a < db.nextOrder
    {
      TakenRow(db.orders, a, o);
    }
  }

  lemma TakenRow(orders: Orders, a: OrderId, o: OrderId)
    requires o in orders && TakesCard(orders, a, o)
    ensures a in orders
  {
  }

  // A card can be sent for this order: nobody at all waits in its village, no offer
  // card of it lies open, the messenger takes the card and a trip takes the order.
  ghost predicate CardOpen(db: Db, o: OrderId, env: Env)
    requires o in db.orders
  {
    && !db.orders[o].offerCard && !db.orders[o].fallback && o in env.cards
    && (exists v :: StartsIn(db.orders[o], v) && forall d :: !FreeFor(db, d, VillageLine(v)))
    && (exists t :: TakesCard(db.orders, t, o))
  }

  // The row with the card for the trip that departed first.
  ghost predicate GotCard(orders: Orders, o: OrderId, env: Env, left: Order)
    requires o in orders
  {
    && o in env.cards
    && (exists t: OrderId ::
          && FirstToTake(orders, t, o)
          && left == orders[o].(slot := RouteOffer(orders[t].driver, Some(t), Some(env.cards[o]),
                                                   Some((orders[t].driver.value, env.cards[o])))))
  }

  // Exactly then an unassigned order without a card gets one, for the trip that
  // departed first; and nothing else happens to any order.
  lemma CardIff(db: Db, o: OrderId, env: Env)
    requires RosterOk(db) && DistinctPositions(db.queue) && o in db.orders
    requires var row := db.orders[o];
      && row.status in {Created, Queued, NoDrivers} && row.driver.None? && row.reserved.None? && row.offered.None?
      && row.slot.driver.None?
    ensures var n := NotifyBusyDrivers(db, o, env);
      && (n.created <==> CardOpen(db, o, env))
      && (!n.created ==> n.db.orders == db.orders)
      && (n.created ==>
            && o in n.db.orders && GotCard(db.orders, o, env, n.db.orders[o])
            && n.db.orders == db.orders[o := n.db.orders[o]])
  {
    hide Repair, RosterOk, DistinctPositions, HasWaiting, ClaimTrip, TakesCard, FreeFor, RouteCity;
    RepairFrame(db);
    StartsIs(db.orders[o]);
    WaitingIff(db, StageLine(db.orders[o]), {});
    ClaimIs(db, o);
  }

  // ---------------------------------------------------------------- what becomes of an order

  // The line an order belongs to.
  ghost predicate Home(row: Order, line: Line)
  {
    && (forall v :: StartsIn(row, v) ==> line == if row.fallback then Gorno else VillageLine(v))
    && ((forall v :: !StartsIn(row, v)) ==> line == Gorno)
  }

  lemma HomeIs(row: Order, line: Line)
    ensures Home(row, line) <==> line == StageLine(row)
  {
    StartsIs(row);
    if RouteCity(row).Some? { assert StartsIn(row, RouteCity(row).value); }
  }

  ghost predicate Wanted(db: Db, o: OrderId, line: Line)
    requires o in db.orders
  {
    exists d :: FreeFor(db, d, line) && d !in db.orders[o].notes.declined
  }

  // A village order that nobody at all waits for and no trip takes, before its
  // fallback, while somebody in Gornozavodsk has not declined it. Requests for the
  // chat do not come so far.
  ghost predicate FarOff(db: Db, o: OrderId, env: Env)
    requires o in db.orders
  {
    var row := db.orders[o];
    && (exists v :: StartsIn(row, v) && forall d :: !FreeFor(db, d, VillageLine(v))) && !row.fallback
    && (row.request.byDispatcher || (!row.request.delivery && !row.notes.chatReason))
    && (row.offerCard || o !in env.cards || forall t :: !TakesCard(db.orders, t, o))
    && Wanted(db, o, Gorno)
  }

  // Whom the cascade asks, in the terms of the tables.
  lemma AskedIs(db: Db, o: OrderId, line: Line, env: Env)
    requires RosterOk(db) && DistinctPositions(db.queue) && o in db.orders && Home(db.orders[o], line)
    ensures var asked := FirstAsked(db, o, env); var declined := db.orders[o].notes.declined;
      && (asked.Some? <==> Wanted(db, o, line) || FarOff(db, o, env))
      && (asked.Some? ==> First(db, asked.value, if Wanted(db, o, line) then line else Gorno, declined))
  {
    hide Repair, RosterOk, DistinctPositions, HasWaiting, ClaimTrip, TakesCard, FreeFor, RouteCity, Home, First, Pick;
    var declined := db.orders[o].notes.declined;
    HomeIs(db.orders[o], line);
    StartsIs(db.orders[o]);
    WaitingIff(db, line, declined);
    WaitingIff(db, line, {});
    WaitingIff(db, Gorno, declined);
    PicksIff(db, line, declined);
    PicksIff(db, Gorno, declined);
    ClaimIs(db, o);
  }

  lemma PicksIff(db: Db, line: Line, excluded: set<DriverId>)
    ensures Pick(Repair(db), line, excluded).Some? <==> HasWaiting(db, line, excluded)
  {
  }

  // What one cascade makes of an order that is nobody's: it stands before the first
  // willing driver of its line, or before the first of Gornozavodsk when it has come so
  // far; otherwise it is in the requests chat exactly if it may go there and the chat
  // takes it, with nobody if the chat does not, and queued if it may not.
  ghost predicate Settles(db: Db, o: OrderId, home: Line, env: Env, left: Order)
    requires o in db.orders
  {
    var row := db.orders[o];
    && left.request == row.request && left.notes == row.notes && left.driver.None? && left.reserved.None?
    && if Wanted(db, o, home) || FarOff(db, o, env) then
         && left.status == Searching && left.offered.Some? && left.offerCard == (o in env.cards)
         && left.slot == row.slot && (row.fallback ==> left.fallback)
         && First(db, left.offered.value, if Wanted(db, o, home) then home else Gorno, row.notes.declined)
       else if !row.request.byDispatcher && (row.request.delivery || row.notes.chatReason) then
         left == row.(status := if env.chatConfigured && env.chatAccepts then ChatSearch else NoDrivers)
       else left.status == Queued && left.offered.None?
  }

  lemma CascadeLeaves(db: Db, o: OrderId, home: Line, line: Option<Line>, env: Env, depth: nat)
    requires Ready(db, o) && depth >= 2 && Home(db.orders[o], home) && (line.Some? ==> line.value == home)
    requires OfferToNextDriver(db, o, {}, line, env, depth).Done?
    ensures var r := OfferToNextDriver(db, o, {}, line, env, depth).db;
      && o in r.orders && Settles(db, o, home, env, r.orders[o])
      && (r.orders[o].status == Queued ==> r.parked == db.parked + [Parked(o, ParkWaiting)])
      && (r.orders[o].status in {ChatSearch, NoDrivers} ==> r.parked == db.parked)
      && (IsParked(r.parked, o) <==> r.orders[o].status == Queued)
  {
    hide OfferToNextDriver, Ready, Wanted, FarOff, Quiet, Home, First, FirstAsked;
    ReadyParts(db, o);
    HomeIs(db.orders[o], home);
    AskedIs(db, o, home, env);
    CascadeAsks(db, o, line, env, depth);
    var r := OfferToNextDriver(db, o, {}, line, env, depth).db;
    if r.parked == db.parked + [Parked(o, ParkWaiting)] { assert r.parked[|db.parked|].order == o; }
    SameQueueParks(db.parked, PausePrompts(db.parked, Some(o)));
  }

  // So an order ends in the chat, out of the passenger queue, exactly if nobody can be
  // asked, it is a passenger's, it is a delivery or was refused as too far or as a
  // delivery, and the chat is there and takes it; if the chat does not, it is left with
  // nobody; any other order that nobody can be asked about is parked.
  lemma ChatIff(db: Db, o: OrderId, home: Line, line: Option<Line>, env: Env, depth: nat)
    requires Ready(db, o) && depth >= 2 && Home(db.orders[o], home) && (line.Some? ==> line.value == home)
    requires OfferToNextDriver(db, o, {}, line, env, depth).Done?
    ensures var r := OfferToNextDriver(db, o, {}, line, env, depth).db; var row := db.orders[o];
      var chat := !row.request.byDispatcher && (row.request.delivery || row.notes.chatReason);
      && o in r.orders && (FirstAsked(db, o, env).None? ==> !Wanted(db, o, home))
      && (r.orders[o].status == ChatSearch <==>
            !Wanted(db, o, home) && chat && env.chatConfigured && env.chatAccepts)
      && (r.orders[o].status == NoDrivers <==>
            !Wanted(db, o, home) && chat && !(env.chatConfigured && env.chatAccepts))
      && (r.orders[o].status == Queued <==> FirstAsked(db, o, env).None? && !chat)
      && (IsParked(r.parked, o) <==> r.orders[o].status == Queued)
  {
    hide OfferToNextDriver, Ready, Wanted, Home, First, TakesCard, StartsIn, FreeFor, FirstAsked, IsParked;
    CascadeLeaves(db, o, home, line, env, depth);
    AskedIs(db, o, home, env) by { ReadyParts(db, o); }
  }

  // ---------------------------------------------------------------- the fallback

  // Only an unassigned order and the passenger queue differ.
  ghost predicate UnseenBut(db: Db, x: Db, o: OrderId)
  {
    && o in db.orders && o in x.orders && x == db.(orders := db.orders[o := x.orders[o]], parked := x.parked)
    && Unseen(db.orders[o]) && Unseen(x.orders[o])
  }

  // The pick of a line does not notice the difference.
  lemma UnseenPicks(db: Db, x: Db, o: OrderId, line: Line, excluded: set<DriverId>)
    requires UnseenBut(db, x, o)
    ensures Pick(Repair(x), line, excluded) == Pick(Repair(db), line, excluded)
    ensures HasWaiting(x, line, excluded) == HasWaiting(db, line, excluded)
  {
    hide Repair;
    UnseenRepairs(db, x, o);
    UnseenPicksFrom(db, x, o, line, excluded, 0);
  }

  lemma {:induction false} UnseenPicksFrom(db: Db, x: Db, o: OrderId, line: Line, excluded: set<DriverId>, i: nat)
    requires UnseenBut(db, x, o) && Repair(x).queue == Repair(db).queue && i <= |db.roster|
    ensures PickFrom(Repair(x), line, excluded, i) == PickFrom(Repair(db), line, excluded, i)
    decreases |db.roster| - i
  {
    hide Repair;
    RepairFrame(db);
    RepairFrame(x);
    if i < |db.roster| {
      UnseenPicksFrom(db, x, o, line, excluded, i + 1);
      EligibleAlike(Repair(db), Repair(x), o, line, excluded, db.roster[i]);
    }
  }

  lemma RepairedWaits(a: Db, line: Line, excluded: set<DriverId>)
    requires Repair(Repair(a)) == Repair(a)
    ensures HasWaiting(Repair(a), line, excluded) == HasWaiting(a, line, excluded)
    ensures Pick(Repair(Repair(a)), line, excluded) == Pick(Repair(a), line, excluded)
  {
    hide Repair;
  }

  // The state from which the fallback hands the order to Gornozavodsk sees the same
  // drivers.
  lemma GornoSees(db: Db, o: OrderId, line: Line, excluded: set<DriverId>)
    requires Steady(db) && o in db.orders && Candidate(db.orders[o].status) && Unseen(db.orders[o])
    ensures var p := Parking(db, o); var f := Put(p, o, p.orders[o].(fallback := true));
      var u := Unparked(Repair(f), o);
      && HasWaiting(f, line, excluded) == HasWaiting(db, line, excluded)
      && HasWaiting(u, line, excluded) == HasWaiting(db, line, excluded)
      && Pick(Repair(u), line, excluded) == Pick(Repair(db), line, excluded)
  {
    hide Repair, Pick, RosterOk, DistinctPositions, ParkedOk, HasWaiting, Unpark, SetPark, IsParked;
    var p := Parking(db, o);
    var f := Put(p, o, p.orders[o].(fallback := true));
    LevelOf(db, o);
    ParkedLevel(db, o);
    FlaggedLevel(p, o);
    assert f.orders == db.orders[o := f.orders[o]];
    UnseenPicks(db, f, o, line, excluded);
    RepairIdempotent(f) by { LevelParts(f, o); }
    RepairedWaits(f, line, excluded);
    RepairFrame(f);
    var u := Unparked(Repair(f), o);
    assert u == Repair(f).(orders := Repair(f).orders[o := u.orders[o]], parked := u.parked);
    UnseenPicks(Repair(f), u, o, line, excluded);
  }

  lemma LevelParts(db: Db, o: OrderId)
    requires o in db.orders && Level(db, o)
    ensures RosterOk(db) && DistinctPositions(db.queue)
  {
  }

  // What the fallback makes of a village request: offered to the first driver of
  // Gornozavodsk who has not declined it; in the chat or with nobody, if all who wait
  // there have, and it may go there; parked if nobody waits there at all. Its card is
  // closed, and the village is not asked again.
  ghost predicate Falls(db: Db, o: OrderId, env: Env, left: Order)
    requires o in db.orders
  {
    var row := db.orders[o];
    && left.request == row.request && left.notes == row.notes && left.driver.None? && left.reserved.None?
    && left.fallback && left.slot == NO_ROUTE_OFFER
    && if Wanted(db, o, Gorno) then
         && left.status == Searching && left.offered.Some? && left.offerCard == (o in env.cards)
         && First(db, left.offered.value, Gorno, row.notes.declined)
       else if exists d :: FreeFor(db, d, Gorno) then
         left.status == (if env.chatConfigured && env.chatAccepts then ChatSearch else NoDrivers) && left.offered.None?
       else left.status == Queued && left.offered.None?
  }

  // It has no end if all who wait in Gornozavodsk have declined it and it may not go to
  // the chat.
  lemma FallbackLeaves(db: Db, o: OrderId, env: Env, depth: nat)
    requires Steady(db) && o in db.orders && depth >= 2
    requires db.orders[o].status in {Created, Queued, NoDrivers} && db.orders[o].driver.None?
    requires db.orders[o].reserved.None? && exists v :: StartsIn(db.orders[o], v)
    ensures var r := Fallback(db, o, false, env, depth); var row := db.orders[o];
      && (r.TooDeep? <==>
            !Wanted(db, o, Gorno) && (exists d :: FreeFor(db, d, Gorno))
            && (row.request.byDispatcher || (!row.request.delivery && !row.notes.chatReason)))
      && (r.Done? ==>
            o in r.db.orders && Falls(db, o, env, r.db.orders[o])
            && (IsParked(r.db.parked, o) <==> r.db.orders[o].status == Queued)
            && (IsParked(r.db.parked, o) ==> Quiet(r.db, o)))
  {
    hide OfferToNextDriver, Steady, Ready, HasWaiting, EnterFallback, Wanted, Falls, Parking, Level, StartsIn, FreeFor;
    LevelOf(db, o);
    ParkedLevel(db, o);
    var p := Parking(db, o);
    StartsIs(db.orders[o]);
    FallbackEnters(db, o, env, depth);
    GornoIs(p, o, env, depth);
    var t := GornoHands(p, o);
    GornoWaits(db, o);
    VillageSome(db.orders[o]);
    if t.None? { GornoParks(db, o, env, depth); }
    else { GornoHandsOn(db, o, env, depth); }
  }

  lemma FallbackEnters(db: Db, o: OrderId, env: Env, depth: nat)
    requires o in db.orders && Candidate(db.orders[o].status) && db.orders[o].driver.None?
    requires db.orders[o].reserved.None?
    ensures Fallback(db, o, false, env, depth) == EnterFallback(Parking(db, o), o, env, depth)
  {
    hide EnterFallback, Parking;
  }

  lemma GornoWaits(db: Db, o: OrderId)
    requires Steady(db) && o in db.orders && Candidate(db.orders[o].status) && db.orders[o].driver.None?
    requires db.orders[o].reserved.None?
    ensures Unseen(db.orders[o])
    ensures GornoHands(Parking(db, o), o).None? <==> forall d :: !FreeFor(db, d, Gorno)
    ensures Wanted(db, o, Gorno) <==> HasWaiting(db, Gorno, db.orders[o].notes.declined)
  {
    hide HasWaiting, FreeFor, Repair, RosterOk, DistinctPositions, ParkedOk, Unparked, Parking;
    assert RowOk(db.orders[o]);
    GornoSees(db, o, Gorno, {});
    WaitingIff(db, Gorno, {});
    WaitingIff(db, Gorno, db.orders[o].notes.declined);
  }

  lemma GornoParks(db: Db, o: OrderId, env: Env, depth: nat)
    requires Steady(db) && o in db.orders && Candidate(db.orders[o].status) && db.orders[o].driver.None?
    requires db.orders[o].reserved.None? && GornoHands(Parking(db, o), o).None?
    ensures var r := EnterFallback(Parking(db, o), o, env, depth);
      && r.Done? && o in r.db.orders && Falls(db, o, env, r.db.orders[o]) && r.db.orders[o].status == Queued
      && IsParked(r.db.parked, o) && !Wanted(db, o, Gorno) && (forall d :: !FreeFor(db, d, Gorno))
      && (RouteCity(db.orders[o]).Some? ==> Quiet(r.db, o))
  {
    hide HasWaiting, FreeFor, Repair, RosterOk, DistinctPositions;
    hide ParkedOk, Unparked, OfferToNextDriver, Parking, First;
    LevelOf(db, o);
    ParkedLevel(db, o);
    ParkingParks(db, o);
    GornoWaits(db, o);
    var p := Parking(db, o);
    var f := Put(p, o, p.orders[o].(fallback := true));
    RepairFrame(f);
    FlaggedLevel(p, o);
    LevelParts(f, o);
    RepairIdempotent(f);
    RepairedWaits(f, Gorno, {});
  }

  lemma ParkingParks(db: Db, o: OrderId)
    requires o in db.orders
    ensures IsParked(Parking(db, o).parked, o)
  {
    var row := ClearRoute(db.orders[o]).(driver := None, reserved := None, etaChosen := false, status := Queued);
    var e := Enqueue(Put(db, o, row), o);
    assert IsParked(e.parked, o) by {
      if !IsParked(db.parked, o) { assert e.parked[|db.parked|].order == o; }
    }
    var i :| 0 <= i < |e.parked| && e.parked[i].order == o;
    assert Parking(db, o).parked[i].order == o;
  }

  lemma GornoHandsOn(db: Db, o: OrderId, env: Env, depth: nat)
    requires Steady(db) && o in db.orders && depth >= 2
    requires db.orders[o].status in {Created, Queued, NoDrivers} && db.orders[o].driver.None?
    requires db.orders[o].reserved.None? && RouteCity(db.orders[o]).Some? && GornoHands(Parking(db, o), o).Some?
    ensures var r := EnterFallback(Parking(db, o), o, env, depth); var row := db.orders[o];
      var chat := !row.request.byDispatcher && (row.request.delivery || row.notes.chatReason);
      && (r.TooDeep? <==> !Wanted(db, o, Gorno) && !chat)
      && (r.Done? ==>
            o in r.db.orders && Falls(db, o, env, r.db.orders[o]) && r.db.orders[o].status != Queued
            && !IsParked(r.db.parked, o))
  {
    hide OfferToNextDriver, Ready, HasWaiting, EnterFallback, FreeFor, First, Pick, Repair, Parking, GornoHands, Home;
    hide Steady, RouteOfferPossible, RouteCity, StageLine, Stuck, Willing, Staffed, FarOff, Wanted;
    GornoState(db, o, env, depth);
    var t, declined := GornoHands(Parking(db, o), o).value, db.orders[o].notes.declined;
    HomeIs(t.orders[o], Gorno);
    GornoStuck(t, o, env);
    DeepIff(t, o, {}, Some(Gorno), env, depth);
    CascadeAsks(t, o, Some(Gorno), env, depth);
    if OfferToNextDriver(t, o, {}, Some(Gorno), env, depth).Done? {
      CascadeLeaves(t, o, Gorno, Some(Gorno), env, depth);
      GornoSettles(t, o, env, OfferToNextDriver(t, o, {}, Some(Gorno), env, depth).db.orders[o]);
    }
  }

  lemma GornoState(db: Db, o: OrderId, env: Env, depth: nat)
    requires Steady(db) && o in db.orders
    requires db.orders[o].status in {Created, Queued, NoDrivers} && db.orders[o].driver.None?
    requires db.orders[o].reserved.None? && RouteCity(db.orders[o]).Some? && GornoHands(Parking(db, o), o).Some?
    ensures var t := GornoHands(Parking(db, o), o).value; var declined := db.orders[o].notes.declined;
      && EnterFallback(Parking(db, o), o, env, depth) == OfferToNextDriver(t, o, {}, Some(Gorno), env, depth)
      && Ready(t, o) && StageLine(t.orders[o]) == Gorno && Staffed(t, Gorno) && RouteCity(t.orders[o]).Some?
      && t.orders[o] == ClearRoute(db.orders[o]).(etaChosen := false, status := Searching, fallback := true)
      && (Willing(t, o, Gorno) <==> Wanted(db, o, Gorno)) && (exists d :: FreeFor(db, d, Gorno))
      && (Wanted(db, o, Gorno) ==>
            var p := Pick(Repair(t), Gorno, declined); p.Some? && First(db, p.value, Gorno, declined))
  {
    hide OfferToNextDriver, Ready, HasWaiting, EnterFallback, FreeFor, First, Pick, Repair, Parking, Unparked;
    hide RosterOk, DistinctPositions, ParkedOk;
    LevelOf(db, o);
    ParkedLevel(db, o);
    GornoWaits(db, o);
    var declined := db.orders[o].notes.declined;
    GornoIs(Parking(db, o), o, env, depth);
    GornoRow(db, o);
    GornoSees(db, o, Gorno, declined);
    GornoSees(db, o, Gorno, {});
    WaitingIff(db, Gorno, declined);
    PicksIff(db, Gorno, declined);
  }

  lemma GornoStuck(t: Db, o: OrderId, env: Env)
    requires o in t.orders && RouteCity(t.orders[o]).Some? && StageLine(t.orders[o]) == Gorno && Staffed(t, Gorno)
    requires t.orders[o].fallback
    ensures var row := t.orders[o];
      && (Stuck(t, o, env) <==>
            !Willing(t, o, Gorno) && (row.request.byDispatcher || (!row.request.delivery && !row.notes.chatReason)))
      && FirstAsked(t, o, env) ==
           if Willing(t, o, Gorno) then Pick(Repair(t), Gorno, row.notes.declined) else None
  {
    hide Repair, HasWaiting, Pick, ClaimTrip;
  }

  // In Gornozavodsk, with somebody waiting, there is no further stage.
  lemma GornoSettles(t: Db, o: OrderId, env: Env, left: Order)
    requires Ready(t, o) && StageLine(t.orders[o]) == Gorno && t.orders[o].fallback && RouteCity(t.orders[o]).Some?
    requires Settles(t, o, Gorno, env, left)
    ensures Wanted(t, o, Gorno) <==> Willing(t, o, Gorno)
    ensures var row := t.orders[o];
      && left.request == row.request && left.notes == row.notes && left.driver.None? && left.reserved.None?
      && if Willing(t, o, Gorno) then
           && left.status == Searching && left.offered.Some? && left.offerCard == (o in env.cards)
           && left.slot == NO_ROUTE_OFFER && left.fallback
         else if !row.request.byDispatcher && (row.request.delivery || row.notes.chatReason) then
           left == row.(status := if env.chatConfigured && env.chatAccepts then ChatSearch else NoDrivers)
         else left.status == Queued && left.offered.None?
  {
    hide Repair, HasWaiting, FreeFor, First, RosterOk, DistinctPositions, Pick;
    ReadyParts(t, o);
    WaitingIff(t, Gorno, t.orders[o].notes.declined);
  }

  lemma GornoRow(db: Db, o: OrderId)
    requires o in db.orders && Level(db, o) && Candidate(db.orders[o].status) && db.orders[o].driver.None?
    requires db.orders[o].reserved.None? && GornoHands(Parking(db, o), o).Some?
    ensures var t := GornoHands(Parking(db, o), o).value;
      && t.orders[o] == ClearRoute(db.orders[o]).(etaChosen := false, status := Searching, fallback := true)
      && (RouteCity(db.orders[o]).Some? ==> StageLine(t.orders[o]) == Gorno)
  {
    hide Level, Repair, HasWaiting, Parking, Unpark;
    ParkedLevel(db, o);
    var p := Parking(db, o);
    RepairFrame(Put(p, o, p.orders[o].(fallback := true)));
  }

  // The cascade goes round in a circle, in the terms of the tables: a village request
  // that may not go to the chat, declined by everybody who waits for it, while somebody
  // does wait, in the village or, with no card to send, in Gornozavodsk.
  lemma StuckIff(db: Db, o: OrderId, home: Line, env: Env)
    requires RosterOk(db) && DistinctPositions(db.queue) && o in db.orders && Home(db.orders[o], home)
    ensures var row := db.orders[o];
      Stuck(db, o, env) <==>
        && (exists v :: StartsIn(row, v))
        && (row.request.byDispatcher || (!row.request.delivery && !row.notes.chatReason))
        && !Wanted(db, o, home)
        && ((exists d :: FreeFor(db, d, home))
            || (!row.fallback && (row.offerCard || o !in env.cards || forall t :: !TakesCard(db.orders, t, o))
                && (exists d :: FreeFor(db, d, Gorno)) && !Wanted(db, o, Gorno)))
  {
    hide Repair, RosterOk, DistinctPositions, HasWaiting, ClaimTrip, TakesCard, FreeFor, RouteCity, Home, Pick;
    hide StageLine;
    HomeIs(db.orders[o], home);
    StartsIs(db.orders[o]);
    WaitingIff(db, home, db.orders[o].notes.declined);
    WaitingIff(db, home, {});
    WaitingIff(db, Gorno, db.orders[o].notes.declined);
    WaitingIff(db, Gorno, {});
    ClaimIs(db, o);
    VillageSome(db.orders[o]);
  }

  lemma VillageSome(row: Order)
    ensures RouteCity(row).Some? <==> exists v :: StartsIn(row, v)
  {
    if RouteCity(row).Some? { assert StartsIn(row, RouteCity(row).value); }
  }
}
