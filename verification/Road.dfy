// What happens on the road, told in the fields of the tables: departure, arrival and
// boarding, a broken car, and a ride refused after it was assigned.
module Road {
  import opened Options
  import opened DispatchState
  import opened OrderTable
  import opened DriverLine
  import opened Cascade
  import opened CascadeInv
  import opened Frames
  import opened PassengerQueue
  import opened Transactions
  import opened Trips
  import opened Handoff
  import opened OfferSteps
  import opened RouteSteps
  import opened TripSteps
  import opened TripSafety
  import opened CancelSafety
  import opened BrokenEnds
  import opened Protocol
  import opened Asking
  import opened Dispatched
  import opened Prompts
  import opened Answers
  import opened Taking
  import opened Endings

  // ---------------------------------------------------------------- the ride itself

  // The driver says that he is on his way: the moment is kept, once; boarding starts the
  // ride. Without a ride neither does anything.
  lemma RideNotes(db: Db, o: OrderId, d: DriverId, env: Env, depth: nat)
    requires Inv(db) && o in db.orders && Owns(db.orders[o], d, Ride)
    ensures var row := db.orders[o];
      Step(db, Departs(d), env, depth) == db.(orders := db.orders[o := row.(
        offerCard := row.offerCard && !env.cardsClose,
        notes := row.notes.(departed := if row.notes.departed.Some? then row.notes.departed else Some(env.now)))])
    ensures Step(db, Boards(d), env, depth) == db.(orders := db.orders[o := db.orders[o].(status := InProgress)])
  {
    hide InvDuring, RideOf, Requesting, Ending, Claiming, Refusing, OnTheLine, Timing;
    TheRide(db, o, d);
  }

  lemma NoRideNotes(db: Db, d: DriverId, env: Env, depth: nat)
    requires Inv(db) && !HasClaim(db.orders, d, Ride)
    ensures Step(db, Departs(d), env, depth) == db && Step(db, Boards(d), env, depth) == db
    ensures Step(db, Arrives(d), env, depth) == db
  {
    hide InvDuring, RideOf, Requesting, Ending, Claiming, Refusing, OnTheLine, Timing, HasClaim;
    RideOfIsRide(db, d, None);
  }

  // An order a busy driver could take: nobody has it or is being shown it, and nobody
  // free waits for it.
  ghost predicate Takeable(db: Db, x: OrderId)
  {
    && x in db.orders
    && var row := db.orders[x];
    && row.status in {Created, Queued, NoDrivers} && row.driver.None? && row.reserved.None?
    && !row.offerCard && (forall home :: Home(row, home) ==> NobodyFree(db, x, home))
  }

  lemma TakeableIs(db: Db, x: OrderId)
    requires Inv(db)
    ensures Takeable(db, x) <==> x in db.orders && Unassigned(db.orders[x]) && !FreeDriverHasPriority(db, x)
  {
    hide InvDuring, RowOk, FreeDriverHasPriority, NobodyFree, Home, StageLine;
    if x in db.orders && Unassigned(db.orders[x]) {
      NotOfferedRow(db, x);
      InvParts(db, None);
      var home := StageLine(db.orders[x]);
      forall line ensures Home(db.orders[x], line) <==> line == home { HomeIs(db.orders[x], line); }
      PriorityIs(db, x, home);
    }
  }

  // The latest such order.
  lemma {:induction false} LatestIs(db: Db, n: OrderId)
    requires Inv(db)
    ensures var a := LatestAvailable(db, n);
      && (a.Some? ==> a.value < n && Takeable(db, a.value) && forall x: OrderId :: Takeable(db, x) && x < n ==>
            x <= a.value)
      && (a.None? ==> forall x: OrderId :: Takeable(db, x) ==> x >= n)
  {
    hide Inv, FreeDriverHasPriority, Takeable;
    if n > 0 {
      LatestIs(db, n - 1);
      TakeableIs(db, n - 1);
    }
  }

  ghost predicate Sent(db: Db, x: OrderId, env: Env)
  {
    && Takeable(db, x) && (forall y: OrderId :: Takeable(db, y) ==> y <= x)
    && db.orders[x].slot.driver.None? && CardOpen(db, x, env)
  }

  // Arrival is noted, and the latest order a busy driver could take may go out as a card:
  // exactly if it has none and a trip takes it. No other order changes.
  lemma ArriveDoes(db: Db, o: OrderId, d: DriverId, env: Env, depth: nat, x: OrderId)
    requires Inv(db) && o in db.orders && Owns(db.orders[o], d, Ride)
    ensures var r := Step(db, Arrives(d), env, depth); var there := Put(db, o, db.orders[o].(status := Arrived));
      && o in r.orders && r.orders[o] == db.orders[o].(status := Arrived)
      && (x in db.orders && x != o ==>
            && x in r.orders
            && (if Sent(there, x, env) then GotCard(there.orders, x, env, r.orders[x])
                else r.orders[x] == db.orders[x]))
  {
    hide InvDuring, RideOf, Step, LatestAvailable, Takeable, NotifyBusyDrivers, CardOpen, GotCard;
    TheRide(db, o, d);
    ArriveIsStep(db, d, env, depth);
    var there := Put(db, o, db.orders[o].(status := Arrived));
    ArrivedKeeps(db, o, d);
    LatestIs(there, there.nextOrder);
    var a := LatestAvailable(there, there.nextOrder);
    TakeableKnown(there);
    if a.Some? {
      TakeableIs(there, a.value);
      SentIf(there, a.value, env);
      RiddenNotTakeable(there, o);
    }
  }

  lemma ArriveIsStep(db: Db, d: DriverId, env: Env, depth: nat)
    ensures Step(db, Arrives(d), env, depth) == Arrive(db, d, env)
  {
    hide RideOf, Requesting, Ending, Claiming, Refusing, OnTheLine, Timing, Arrive;
  }

  lemma ArrivedKeeps(db: Db, o: OrderId, d: DriverId)
    requires Inv(db) && o in db.orders && Owns(db.orders[o], d, Ride)
    ensures Inv(Put(db, o, db.orders[o].(status := Arrived)))
  {
    hide InvDuring;
    RidesNow(db.orders[o], d);
    NoteRow(db, o, db.orders[o].(status := Arrived), None);
  }

  lemma TakeableKnown(db: Db)
    requires Inv(db)
    ensures forall x: OrderId :: Takeable(db, x) ==> x in db.orders && x < db.nextOrder
  {
  }

  lemma RiddenNotTakeable(db: Db, o: OrderId)
    requires o in db.orders && db.orders[o].status == Arrived
    ensures !Takeable(db, o)
  {
  }

  lemma SentIf(db: Db, x: OrderId, env: Env)
    requires Inv(db) && x in db.orders && Unassigned(db.orders[x])
    ensures var n := NotifyBusyDrivers(db, x, env).db; var row := db.orders[x];
      if CardOpen(db, x, env) && row.slot.driver.None? then
        x in n.orders && GotCard(db.orders, x, env, n.orders[x]) && n.orders == db.orders[x := n.orders[x]]
      else n.orders == db.orders
  {
    hide InvDuring, RowOk, NotifyBusyDrivers, CardOpen, GotCard;
    NotOfferedRow(db, x);
    InvParts(db, None);
    if db.orders[x].slot.driver.Some? {
      SlotUnassigned(db, x);
      AlreadySent(db, x, env);
    } else {
      CardIff(db, x, env);
    }
  }

  lemma AlreadySent(db: Db, x: OrderId, env: Env)
    requires x in db.orders && Unassigned(db.orders[x]) && db.orders[x].slot.driver.Some?
    requires db.orders[x].slot.trip.Some?
    ensures NotifyBusyDrivers(db, x, env) == Notice(db, true)
  {
    hide HasWaiting, ClaimTrip;
  }

  // ---------------------------------------------------------------- a broken car

  // The state once the cards of the trip and the reservation of its driver are back.
  function Unloaded(db: Db, o: OrderId, d: DriverId, env: Env, depth: nat): Db
  {
    GiveBack(ReleaseRouteOffers(db, o, env, depth).db, d, env, depth).db
  }

  // The ride is nobody's, the driver away, where he stands.
  function PassedOn(s: Db, o: OrderId, d: DriverId): (r: Db)
    requires o in s.orders && d in s.drivers
    ensures o in r.orders
  {
    s.(orders := s.orders[o := s.orders[o].(driver := None, status := Searching)],
       drivers := s.drivers[d := s.drivers[d].(status := Away)],
       queue := if d in s.queue then s.queue[d := s.queue[d].(status := AwayRow)] else s.queue)
  }

  lemma CarIs(db: Db, o: OrderId, d: DriverId, env: Env, depth: nat)
    requires Inv(db) && o in db.orders && Owns(db.orders[o], d, Ride)
    requires Attempt(db, DriverCancels(d, CarBroken), env, depth).Done?
    ensures var s := Unloaded(db, o, d, env, depth);
      && Stripped(db, s, o, d) && o in s.orders && d in s.drivers && s.orders[o] == db.orders[o]
      && s.drivers == db.drivers && d in db.drivers
      && Attempt(db, DriverCancels(d, CarBroken), env, depth) ==
           if db.orders[o].notes.claimedOffline
           then Done(SetAway(OffLine(Put(s, o, db.orders[o].(status := Cancelled)), d), d), false)
           else ThenAway(ThenPromote(OfferToNextDriver(PassedOn(s, o, d), o, {}, None, env, depth), env, depth), d)
  {
    hide InvDuring, Lawful, RideOf, ReleaseRouteOffers, Released, GiveBack, OfferToNextDriver, TryPromote, Stripped;
    hide Attempt, Step, OffLine;
    TheRide(db, o, d);
    EndingIsStep(db, DriverCancels(d, CarBroken), env, depth);
    ReleaseFirstKeeps(db, o, d, env, depth);
    var r := ReleaseRouteOffers(db, o, env, depth);
    assert r.Done?;
    ReleasedRow(db, r.db, o, d);
    GiveBackStrips(db, r.db, o, d, env, depth);
    StrippedParts(db, GiveBack(r.db, d, env, depth).db, o, d);
    StrippedDrivers(db, GiveBack(r.db, d, env, depth).db, o, d);
  }

  lemma StrippedDrivers(db: Db, s: Db, o: OrderId, d: DriverId)
    requires Stripped(db, s, o, d)
    ensures s.drivers == db.drivers && InvDuring(s, Some(d)) && o in s.orders && Owns(s.orders[o], d, Ride)
  {
    hide InvDuring;
  }

  // A broken car ends a ride the driver had come to the line for, and takes him off it;
  // any other ride goes through the cascade, and he is away.
  lemma CarDoes(db: Db, o: OrderId, d: DriverId, home: Line, env: Env, depth: nat)
    requires Inv(db) && o in db.orders && Owns(db.orders[o], d, Ride) && Home(db.orders[o], home) && depth >= 2
    requires Attempt(db, DriverCancels(d, CarBroken), env, depth).Done?
    ensures d in db.drivers
    ensures var s := Unloaded(db, o, d, env, depth); o in s.orders && d in s.drivers
    ensures var r := Step(db, DriverCancels(d, CarBroken), env, depth); var row := db.orders[o];
      var him := db.drivers[d];
      && o in r.orders
      && r.drivers == db.drivers[d := him.(onLine := him.onLine && !row.notes.claimedOffline, status := Away)]
      && if row.notes.claimedOffline then r.orders[o] == row.(status := Cancelled) && d !in r.queue
         else Settles(PassedOn(Unloaded(db, o, d, env, depth), o, d), o, home, env, r.orders[o])
  {
    hide InvDuring, Lawful, OfferToNextDriver, TryPromote, Stripped, Attempt, Step, OffLine, SetAway, Settles, PassedOn;
    hide Unloaded, Home;
    EndingIsStep(db, DriverCancels(d, CarBroken), env, depth);
    CarIs(db, o, d, env, depth);
    var s, row, him := Unloaded(db, o, d, env, depth), db.orders[o], db.drivers[d];
    if row.notes.claimedOffline {
      OffAndAway(Put(s, o, row.(status := Cancelled)), d);
    } else {
      PassedOnKeeps(db, s, o, d);
      var free := PassedOn(s, o, d);
      SameHome(row, free.orders[o], home);
      AfterCascade(free, o, home, env, depth, Some(d));
      var t := ThenPromote(OfferToNextDriver(free, o, {}, None, env, depth), env, depth);
      AwayIs(t.db, d);
      AwayOrders(t.db, d);
      Overwritten(s.drivers, d, him.(status := Away), him.(status := Away));
    }
  }

  lemma OffAndAway(c: Db, d: DriverId)
    requires d in c.drivers
    ensures d in OffLine(c, d).drivers
    ensures var r := SetAway(OffLine(c, d), d);
      && r.orders == c.orders && d !in r.queue
      && r.drivers == c.drivers[d := c.drivers[d].(onLine := false, status := Away)]
  {
    hide OffLine, SetAway;
    var him := c.drivers[d];
    OffIs(c, d);
    OffOrders(c, d);
    AwayIs(OffLine(c, d), d);
    AwayOrders(OffLine(c, d), d);
    Overwritten(c.drivers, d, him.(onLine := false, status := Offline), him.(onLine := false, status := Away));
  }

  lemma PassedOnKeeps(db: Db, s: Db, o: OrderId, d: DriverId)
    requires Inv(db) && Stripped(db, s, o, d) && o in s.orders && d in s.drivers
    ensures var free := PassedOn(s, o, d);
      && InvDuring(free, Some(d)) && Adrift(free, o) && d in free.drivers
      && free.drivers == s.drivers[d := s.drivers[d].(status := Away)]
      && free.orders[o] == s.orders[o].(driver := None, status := Searching)
  {
    hide InvDuring, Lawful, RowOk, RowLaw, OnlyDriver, Stripped, SetAway;
    StrippedParts(db, s, o, d);
    StrippedDrivers(db, s, o, d);
    var row := s.orders[o].(driver := None, status := Searching);
    FreedRide(db, o, d);
    AwayLocal(s, d);
    FreeAdrift(db, s, o, d, SetAway(s, d), row);
    RowPartsOf(s, o, Some(d));
    RidingNotQueued(s.orders[o], d);
    ClosedElsewhere(s, o, row);
    FreeRow(s, o, row, s.parked, Some(d));
    var mid := Put(s, o, row);
    assert mid == Put(s, o, row).(parked := s.parked);
    SwapPut(s, SetAway(s, d), o, row, d);
    NotOffered(mid, d, Some(d));
    DriverMoves(mid, Put(SetAway(s, d), o, row), d, Some(d));
    assert Put(SetAway(s, d), o, row) == PassedOn(s, o, d) by { PassedIs(s, o, d); }
  }

  lemma PassedIs(s: Db, o: OrderId, d: DriverId)
    requires o in s.orders && d in s.drivers
    ensures Put(SetAway(s, d), o, s.orders[o].(driver := None, status := Searching)) == PassedOn(s, o, d)
  {
  }

  // ---------------------------------------------------------------- refused after assignment

  // The driver's place after his ride is refused: off the line if he had come for it, at
  // his old place after a refusal in the chat, at the tail of his line after a refused
  // delivery price.
  lemma RefuseDoes(db: Db, o: OrderId, d: DriverId, fromChat: bool, env: Env, depth: nat)
    requires Inv(db) && o in db.orders && Owns(db.orders[o], d, Ride)
    requires Attempt(db, RefusesRide(o, fromChat), env, depth).Done?
    ensures d in db.drivers
    ensures var r := Step(db, RefusesRide(o, fromChat), env, depth); var row := db.orders[o]; var him := db.drivers[d];
      if row.status != Assigned then r == db
      else
        && o in r.orders && r.orders[o] == row.(status := Cancelled)
        && r.drivers == db.drivers[d :=
             if row.notes.claimedOffline then him.(onLine := false, status := Offline)
             else him.(status := if d in db.queue then Online else Offline)]
        && (row.notes.claimedOffline ==> d !in r.queue)
        && (!fromChat ==> r.orders == db.orders[o := r.orders[o]])
        && (!fromChat && !row.notes.claimedOffline && d in db.queue ==>
              && d in r.queue && r.queue[d].status == Waiting && r.queue[d].line == db.queue[d].line
              && (forall x :: x in db.queue ==> db.queue[x].position < r.queue[d].position))
  {
    hide InvDuring, RideOf, TryPromote, Attempt, Step, RefusedRide, IsParked, Joined, MaxPosition;
    TheRide(db, o, d);
    EndingIsStep(db, RefusesRide(o, fromChat), env, depth);
    if db.orders[o].status == Assigned {
      RefusedIsRide(db, o, d, fromChat);
      if fromChat {
        var c := RefusedRide(db, o, true);
        CheckLeavesOthers(c, o, env, depth);
        CheckJoins(c, env, depth);
        JoinedStands(c, TryPromote(c, env, depth).db, d);
      }
    }
  }

  lemma JoinedStands(db: Db, r: Db, d: DriverId)
    requires Joined(db, r)
    ensures r.drivers == db.drivers
    ensures d !in db.queue && d in r.queue ==> d in db.drivers && db.drivers[d].onLine
  {
  }

  lemma RefusedIsRide(db: Db, o: OrderId, d: DriverId, fromChat: bool)
    requires Inv(db) && o in db.orders && db.orders[o].driver == Some(d) && d in db.drivers
    ensures var c := RefusedRide(db, o, fromChat); var row := db.orders[o]; var him := db.drivers[d];
      && c.orders == db.orders[o := row.(status := Cancelled)] && c.parked == db.parked
      && c.drivers == db.drivers[d :=
           if row.notes.claimedOffline then him.(onLine := false, status := Offline)
           else him.(status := if d in db.queue then Online else Offline)]
      && (row.notes.claimedOffline ==> d !in c.queue)
      && (!fromChat && !row.notes.claimedOffline && d in db.queue ==>
            && d in c.queue && c.queue[d].status == Waiting && c.queue[d].line == db.queue[d].line
            && (forall x :: x in db.queue ==> db.queue[x].position < c.queue[d].position))
  {
    hide InvDuring, OffLine, RestorePosition, ReturnToQueue;
    var closed := Put(db, o, db.orders[o].(status := Cancelled));
    OffIs(closed, d);
    OffOrders(closed, d);
    RestoreIs(closed, d);
    RestoreOrders(closed, d);
    TailedIs(db, closed, d);
  }

  lemma OffOrders(db: Db, d: DriverId)
    requires d in db.drivers
    ensures OffLine(db, d).orders == db.orders && OffLine(db, d).parked == db.parked
  {
  }

  lemma RestoreOrders(db: Db, d: DriverId)
    requires d in db.drivers
    ensures RestorePosition(db, d).orders == db.orders && RestorePosition(db, d).parked == db.parked
  {
  }

  lemma TailedIs(db: Db, closed: Db, d: DriverId)
    requires Inv(db) && d in db.drivers && closed == db.(orders := closed.orders)
    ensures var c := ReturnToQueue(closed, d);
      && c.orders == closed.orders && c.parked == db.parked
      && c.drivers == db.drivers[d := db.drivers[d].(status := if d in db.queue then Online else Offline)]
      && (d in db.queue ==>
            && d in c.queue && c.queue[d].status == Waiting && c.queue[d].line == db.queue[d].line
            && (forall x :: x in db.queue ==> db.queue[x].position < c.queue[d].position))
  {
    hide OrdersInv, Seated, ParkedOk, MaxPosition;
    assert MaxPosition(closed) == MaxPosition(db) by { SameMax(db, closed); }
    forall x | x in db.queue ensures db.queue[x].position <= MaxPosition(db) { MaxPositionBounds(db, x); }
  }

  lemma SameMax(db: Db, closed: Db)
    requires closed == db.(orders := closed.orders)
    ensures MaxPosition(closed) == MaxPosition(db)
  {
  }
}
