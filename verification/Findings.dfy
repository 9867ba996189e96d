// Where the protocol does not do what it is for: the circle of the cascade, a
// personal request that reaches strangers, and a card for a broken car.
module Findings {
  import opened Options
  import opened DispatchState
  import opened OrderTable
  import opened DriverLine
  import opened Cascade
  import opened CascadeInv
  import opened CascadeDepth
  import opened Frames
  import opened PassengerQueue
  import opened Transactions
  import opened Trips
  import opened Handoff
  import opened OfferSteps
  import opened ClaimSteps
  import opened RouteSteps
  import opened TripSteps
  import opened TripSafety
  import opened CancelSafety
  import opened BrokenEnds
  import opened BrokenCar
  import opened PassengerSteps
  import opened PassengerSafety
  import opened Protocol
  import opened Asking
  import opened Wedging
  import Custody
  import CustodyRuns

  // ---------------------------------------------------------------- the circle

  // The state after the answer itself, before anything else is looked for.
  function RefusedState(db: Db, o: OrderId, d: DriverId, reason: Reason, env: Env): (t: Db)
    requires o in db.orders && d in db.drivers
    ensures o in t.orders
  {
    Put(AfterRefusal(db, d, reason), o, Refused(db.orders[o], d, reason, env))
  }

  function SilentState(db: Db, o: OrderId, d: DriverId, env: Env): (t: Db)
    requires o in db.orders && d in db.drivers
    ensures o in t.orders
  {
    var row := Withdrawn(db.orders[o], env);
    Put(OffLine(db, d), o, if row.request.requested.Some? then row.(status := Cancelled) else row)
  }

  // A refusal that leaves the order stuck is rolled back, at any stack depth:
  // the driver is still looking at the offer he has just declined.
  lemma RefusalUndone(db: Db, o: OrderId, d: DriverId, reason: Reason, env: Env, depth: nat)
    requires Inv(db) && LiveOffer(db.orders, o, d) && d in db.drivers
    requires var free := RefusedState(db, o, d, reason, env); free.orders[o].status == Searching && Stuck(free, o, env)
    ensures Step(db, Declines(o, d, reason), env, depth) == db
  {
    hide InvDuring, OfferToNextDriver, Stuck, Step, Attempt, Decline, RefusedState, TryPromote;
    RefusalIsStep(db, Declines(o, d, reason), env, depth);
    RefusedFree(db, o, d, reason, env);
    DeclineIs(db, o, d, reason, env, depth);
    var free := RefusedState(db, o, d, reason, env);
    ReadyOf(free, o);
    StuckNeverEnds(free, o, {}, None, env, depth);
  }

  lemma RefusedFree(db: Db, o: OrderId, d: DriverId, reason: Reason, env: Env)
    requires Inv(db) && LiveOffer(db.orders, o, d) && d in db.drivers
    ensures var free := RefusedState(db, o, d, reason, env);
      Inv(free) && (free.orders[o].status == Searching ==> Adrift(free, o))
  {
    hide InvDuring, Lawful, AfterRefusal, RowOk, RowLaw, OnlyDriver;
    var row := Refused(db.orders[o], d, reason, env);
    OfferedIsSearching(db, o);
    RefusedOk(db.orders[o], d, reason, env);
    ReleaseIsLocal(db, d, reason);
    OfferFreed(db, o, d, row, AfterRefusal(db, d, reason), env);
  }

  lemma DeclineIs(db: Db, o: OrderId, d: DriverId, reason: Reason, env: Env, depth: nat)
    requires LiveOffer(db.orders, o, d) && d in db.drivers
    ensures var free := RefusedState(db, o, d, reason, env); var r := OfferToNextDriver(free, o, {}, None, env, depth);
      Decline(db, o, d, reason, env, depth) ==
      if free.orders[o].status != Searching then TryPromote(free, env, depth)
      else if reason == GoneAway then r else ThenPromote(r, env, depth)
  {
    hide AfterRefusal, OfferToNextDriver, TryPromote, ThenPromote;
  }

  // When the handing on of an order, and the check after it, run out of stack.
  lemma ThenDeepIff(free: Db, o: OrderId, skip: set<DriverId>, env: Env, depth: nat)
    requires Inv(free) && o in free.orders && Adrift(free, o) && depth >= 2
    ensures var r := OfferToNextDriver(free, o, skip, None, env, depth);
      && (r.TooDeep? <==> Stuck(free, o, env))
      && (ThenPromote(r, env, depth).TooDeep? <==> Stuck(free, o, env) || Wedged(r.db, env))
  {
    hide InvDuring, OfferToNextDriver, Stuck, Wedged, TryPromote, Lawful, Calm, Adrift;
    CascadeEndsIffNotStuck(free, o, skip, None, env, depth);
    LawfulRefl(free);
    OfferSound(free, free, o, skip, env, depth);
    var r := OfferToNextDriver(free, o, skip, None, env, depth);
    InvSteady(r.db, None);
    CheckDeepIff(r.db, env, depth);
  }

  // A refusal, whatever its reason, is undone if and only if its own order is stuck
  // where it is handed on, or the opportunity check that follows is wedged by some
  // other order.
  lemma RefusalUndoneIff(db: Db, o: OrderId, d: DriverId, reason: Reason, env: Env, depth: nat)
    requires Inv(db) && LiveOffer(db.orders, o, d) && d in db.drivers && depth >= 2
    ensures var free := RefusedState(db, o, d, reason, env);
      var r := OfferToNextDriver(free, o, {}, None, env, depth);
      var undone := Attempt(db, Declines(o, d, reason), env, depth).TooDeep?;
      && (undone <==>
            if free.orders[o].status != Searching then Wedged(free, env)
            else Stuck(free, o, env) || (reason != GoneAway && Wedged(r.db, env)))
      && (undone ==> Step(db, Declines(o, d, reason), env, depth) == db)
  {
    hide InvDuring, OfferToNextDriver, Stuck, Wedged, Step, Attempt, Decline, RefusedState, TryPromote, ThenPromote;
    hide Adrift;
    RefusalIsStep(db, Declines(o, d, reason), env, depth);
    RefusedFree(db, o, d, reason, env);
    DeclineIs(db, o, d, reason, env, depth);
    var free := RefusedState(db, o, d, reason, env);
    InvSteady(free, None);
    CheckDeepIff(free, env, depth);
    if free.orders[o].status == Searching { ThenDeepIff(free, o, {}, env, depth); }
  }

  // So is silence: the offer stays where it is, for the watchdog to meet it again.
  lemma SilenceUndoneIff(db: Db, o: OrderId, d: DriverId, env: Env, depth: nat)
    requires Inv(db) && LiveOffer(db.orders, o, d) && d in db.drivers && depth >= 2
    ensures var free := SilentState(db, o, d, env);
      var r := OfferToNextDriver(free, o, {d}, None, env, depth);
      var undone := Attempt(db, OfferExpires(o, d), env, depth).TooDeep?;
      && (undone <==>
            if db.orders[o].request.requested.Some? then Wedged(free, env)
            else Stuck(free, o, env) || Wedged(r.db, env))
      && (undone ==> Step(db, OfferExpires(o, d), env, depth) == db)
  {
    hide InvDuring, OfferToNextDriver, Stuck, Wedged, Step;
    hide Attempt, AcceptTimeout, SilentState, TryPromote, ThenPromote;
    hide Adrift;
    RefusalIsStep(db, OfferExpires(o, d), env, depth);
    SilentFree(db, o, d, env);
    TimeoutIs(db, o, d, env, depth);
    var free := SilentState(db, o, d, env);
    InvSteady(free, None);
    CheckDeepIff(free, env, depth);
    if db.orders[o].request.requested.None? { ThenDeepIff(free, o, {d}, env, depth); }
  }

  lemma SilentFree(db: Db, o: OrderId, d: DriverId, env: Env)
    requires Inv(db) && LiveOffer(db.orders, o, d) && d in db.drivers
    ensures var free := SilentState(db, o, d, env);
      Inv(free) && (db.orders[o].request.requested.None? ==> Adrift(free, o))
  {
    hide InvDuring, Lawful, OffLine, RowOk, RowLaw, OnlyDriver;
    var row := Withdrawn(db.orders[o], env);
    OfferedIsSearching(db, o);
    WithdrawnRow(db.orders[o], d, env);
    WithdrawnClosed(db.orders[o], d, env);
    OffLineIsLocal(db, d);
    OfferFreed(db, o, d, row, OffLine(db, d), env);
    OfferFreed(db, o, d, row.(status := Cancelled), OffLine(db, d), env);
  }

  lemma TimeoutIs(db: Db, o: OrderId, d: DriverId, env: Env, depth: nat)
    requires LiveOffer(db.orders, o, d) && d in db.drivers
    ensures var free := SilentState(db, o, d, env);
      AcceptTimeout(db, o, d, env, depth) ==
      if db.orders[o].request.requested.Some? then TryPromote(free, env, depth)
      else ThenPromote(OfferToNextDriver(free, o, {d}, None, env, depth), env, depth)
  {
    hide OffLine, OfferToNextDriver, TryPromote, ThenPromote;
  }

  lemma ReadyOf(db: Db, o: OrderId)
    requires Inv(db) && Adrift(db, o)
    ensures Ready(db, o)
  {
  }

  // While the first request the opportunity check would act upon is stuck, every
  // round of it is rolled back, and only then.
  lemma RecoveryUndoneIff(db: Db, env: Env, depth: nat)
    requires Inv(db) && depth >= 2
    ensures Attempt(db, Recovery, env, depth).TooDeep? <==> Wedged(db, env)
    ensures Wedged(db, env) ==> Step(db, Recovery, env, depth) == db
  {
    hide *;
    InvSteady(db, None) by { DuringIs(db); }
    CheckDeepIff(db, env, depth);
    RecoveryIs(db, env, depth);
  }

  lemma DuringIs(db: Db)
    ensures Inv(db) == InvDuring(db, None)
  {
  }

  lemma RecoveryIs(db: Db, env: Env, depth: nat)
    ensures Attempt(db, Recovery, env, depth) == TryPromote(db, env, depth)
    ensures TryPromote(db, env, depth).TooDeep? ==> Step(db, Recovery, env, depth) == db
  {
    hide TryPromote;
  }

  // So it is, at any depth, with a stuck village order at the head of the queue.
  lemma PromotionWedged(db: Db, o: OrderId, env: Env, depth: nat)
    requires Inv(db) && db.parked != [] && db.parked[0] == Parked(o, ParkWaiting) && With(db.parked, Polling) == []
    requires o in db.orders && RouteCity(db.orders[o]).Some? && !AsksFirst(db.orders[o], o, env)
    requires Staffed(db, StageLine(db.orders[o]))
    requires o in Unparked(Repair(db), o).orders && Stuck(Unparked(Repair(db), o), o, env)
    ensures TryPromote(db, env, depth).TooDeep?
    ensures Step(db, Recovery, env, depth) == db
  {
    hide InvDuring, Repair, ServeOne, Stuck, Unparked, Staffed, With;
    RepairFrame(db);
    assert With(db.parked, ParkWaiting)[0] == o by { HeadListed(db.parked, o); }
    assert db.(parked := db.parked) == db;
    ServiceWedged(db, o, env, depth);
  }

  lemma HeadListed(parked: seq<Parked>, o: OrderId)
    requires parked != [] && parked[0] == Parked(o, ParkWaiting)
    ensures With(parked, ParkWaiting) != [] && With(parked, ParkWaiting)[0] == o
  {
  }

  lemma ServiceWedged(db: Db, o: OrderId, env: Env, depth: nat)
    requires Inv(db) && db.parked != [] && db.parked[0] == Parked(o, ParkWaiting)
    requires o in db.orders && RouteCity(db.orders[o]).Some? && !AsksFirst(db.orders[o], o, env)
    requires Staffed(db, StageLine(db.orders[o]))
    requires o in Unparked(Repair(db), o).orders && Stuck(Unparked(Repair(db), o), o, env)
    ensures o in Repair(db).orders
    ensures var s := ServeOne(Repair(db), o, env, depth); s.Acted? && s.result.TooDeep?
  {
    hide InvDuring, Repair, OfferToNextDriver, Stuck, Unparked, SearchForm, NextFlag, HasWaiting;
    RepairFrame(db);
    RepairKeeps(db, None, o);
    ParkedIsQueued(db, o) by { assert db.parked[0].order == o; }
    var mid := Repair(db);
    var u := Unparked(mid, o);
    UnparkedKeeps(mid, o, None);
    ReadyOf(u, o);
    WaitingRepaired(db, StageLine(db.orders[o]), {});
    StuckNeverEnds(u, o, {}, Some(StageLine(db.orders[o])), env, depth);
  }

  lemma WaitingRepaired(db: Db, line: Line, excluded: set<DriverId>)
    requires Inv(db)
    ensures HasWaiting(Repair(db), line, excluded) == HasWaiting(db, line, excluded)
  {
    hide RepairAll, Pick;
    RepairIdempotent(db);
  }

  // The state in which a driver has come to a line, if the menu lets him.
  function Arrived(db: Db, ev: Event): Option<Db>
  {
    match ev
    case GoesOnline(d) =>
      if !MenuOpen(db, d) || db.drivers[d].currentLine.None? || !db.drivers[d].carReady then None
      else Some(OnLineNow(Join(db, d, ReturnLine(db, d)), d))
    case PicksLine(d, line) =>
      if !MenuOpen(db, d) || !db.drivers[d].carReady || line !in db.lines then None
      else Some(WithLine(OnLineNow(Join(db, d, Some(line)), d), d, line))
    case StaysOnLine(d) =>
      if !MenuOpen(db, d) || !db.drivers[d].carReady || db.drivers[d].currentLine.None? then None
      else if KnownLine(db, d).Some? then Some(OnLineNow(Join(db, d, KnownLine(db, d)), d))
      else Some(OnLineNow(db, d))
    case _ => None
  }

  // A driver coming to a line in any of the three ways is turned away if and only if
  // the check is wedged once he has arrived.
  lemma ReturnUndoneIff(db: Db, ev: Event, env: Env, depth: nat)
    requires Inv(db) && (ev.GoesOnline? || ev.PicksLine? || ev.StaysOnLine?) && depth >= 2
    ensures var here := Arrived(db, ev); var undone := Attempt(db, ev, env, depth).TooDeep?;
      (undone <==> here.Some? && Wedged(here.value, env)) && (undone ==> Step(db, ev, env, depth) == db)
  {
    hide InvDuring, TryPromote, Wedged, Arrived, Step, Attempt;
    ArrivalIs(db, ev, env, depth);
    if Arrived(db, ev).Some? {
      ArrivedInv(db, ev);
      InvSteady(Arrived(db, ev).value, None);
      CheckDeepIff(Arrived(db, ev).value, env, depth);
    }
  }

  lemma ArrivedInv(db: Db, ev: Event)
    requires Inv(db) && Arrived(db, ev).Some?
    ensures Inv(Arrived(db, ev).value)
  {
    hide InvDuring, Lawful, OnlyDriver, OnLineNow, Join, WithLine, RideOf, OfferOf, ReturnLine;
    var d := ev.driver;
    JoinedLocal(db, d, ReturnLine(db, d));
    JoinedLocal(db, d, KnownLine(db, d));
    if ev.PicksLine? { JoinedLocal(db, d, Some(ev.line)); }
    MenuMoves(db, Arrived(db, ev).value, d);
  }

  lemma ArrivalIs(db: Db, ev: Event, env: Env, depth: nat)
    requires ev.GoesOnline? || ev.PicksLine? || ev.StaysOnLine?
    ensures var here := Arrived(db, ev); var r := Attempt(db, ev, env, depth);
      && r == (if here.Some? then TryPromote(here.value, env, depth) else Done(db, false))
      && Step(db, ev, env, depth) == if r.Done? then r.db else db
  {
    hide TryPromote, MenuOpen, OnLineNow, Join, WithLine;
  }

  // ---------------------------------------------------------------- a concrete circle

  const PASHIYA_ROUTE := Route(Some(Pashiya), None, None, None, false)

  const CLEAN_NOTES := Notes(false, {}, {}, false, None, false, false)

  function Alone(): Db
  {
    Db(map[0 := Order(Searching, Request(7, false, false, PASHIYA_ROUTE, None), None, Some(0), false, None, false,
                      NO_ROUTE_OFFER, false, CLEAN_NOTES)],
       1, [0],
       map[0 := Driver(true, Online, true, false, false, true, Some(VillageLine(Pashiya)))],
       map[0 := QueueRow(Offered, Some(VillageLine(Pashiya)), 1)],
       [], map[], 0, {Gorno, VillageLine(Pashiya)})
  }

  // The only driver of a village line can never turn a village request down.
  lemma CircleExample(env: Env, depth: nat)
    requires 0 !in env.cards
    ensures Inv(Alone()) && LiveOffer(Alone().orders, 0, 0)
    ensures Step(Alone(), Declines(0, 0, Dislike), env, depth) == Alone()
  {
    hide Stuck, Step;
    AloneInv();
    AloneStuck(env);
    RefusalUndone(Alone(), 0, 0, Dislike, env, depth);
  }

  lemma AloneInv()
    ensures Inv(Alone()) && LiveOffer(Alone().orders, 0, 0)
  {
    hide RowOk, SeatedOffer;
    var db := Alone();
    assert RowOk(db.orders[0]) by { AloneRow(); }
    assert db.roster[0] == 0;
    assert SeatedOffer(db, 0, 0) by { AloneSeat(); }
  }

  lemma AloneRow()
    ensures RowOk(Alone().orders[0])
  {
  }

  lemma AloneSeat()
    ensures SeatedOffer(Alone(), 0, 0)
  {
  }

  lemma AloneStuck(env: Env)
    requires 0 !in env.cards
    ensures 0 in Alone().orders && 0 in Alone().drivers && 0 in RefusedState(Alone(), 0, 0, Dislike, env).orders
    ensures Stuck(RefusedState(Alone(), 0, 0, Dislike, env), 0, env)
  {
    hide Repair, Pick, HasWaiting, ClaimTrip;
    var free := RefusedState(Alone(), 0, 0, Dislike, env);
    var line := VillageLine(Pashiya);
    assert free.orders[0].notes.declined == {0};
    assert free.roster[0] == 0;
    OnlyWaits(free, 0, line);
  }

  // The repair leaves a driver waiting on his chosen line where he is.
  lemma KeepsWaiting(db: Db, d: DriverId, line: Line)
    requires RosterOk(db) && DistinctPositions(db.queue)
    requires d in db.queue && db.queue[d].status == Waiting && db.queue[d].line == Some(line)
    requires d in db.drivers && db.drivers[d].currentLine == Some(line)
    ensures var r := Repair(db);
      && RosterOk(r) && d in r.queue && r.queue[d].status == Waiting && r.queue[d].line == Some(line)
      && r.queue.Keys <= r.drivers.Keys
  {
    hide RepairAll, Repairable, MaxPosition;
    RepairDoes(db);
  }

  lemma WaitingMeans(db: Db, line: Line, excluded: set<DriverId>)
    requires RosterOk(Repair(db))
    ensures HasWaiting(db, line, excluded) <==> exists d :: Eligible(Repair(db), line, excluded, d)
  {
    hide Repair;
    PickIsFirst(Repair(db), line, excluded);
  }

  // ---------------------------------------------------------------- a concrete silence

  // Two drivers on the village line; the second has declined the order, the first is
  // looking at it.
  function Deaf(): Db
  {
    Db(map[0 := Order(Searching, Request(7, false, false, PASHIYA_ROUTE, None), None, Some(0), false, None, false,
                      NO_ROUTE_OFFER, false, CLEAN_NOTES.(declined := {1}))],
       1, [0, 1],
       map[0 := Driver(true, Online, true, false, false, true, Some(VillageLine(Pashiya))),
           1 := Driver(true, Online, true, false, false, true, Some(VillageLine(Pashiya)))],
       map[0 := QueueRow(Offered, Some(VillageLine(Pashiya)), 1),
           1 := QueueRow(Waiting, Some(VillageLine(Pashiya)), 2)],
       [], map[], 0, {Gorno, VillageLine(Pashiya)})
  }

  // His silence is undone as well, as often as the watchdog takes it up.
  lemma SilenceExample(env: Env, depth: nat)
    requires 0 !in env.cards && depth >= 2
    ensures Inv(Deaf()) && LiveOffer(Deaf().orders, 0, 0)
    ensures Step(Deaf(), OfferExpires(0, 0), env, depth) == Deaf()
  {
    hide Inv, Stuck, Step, Attempt, SilentState;
    DeafInv();
    DeafStuck(env);
    SilenceUndoneIff(Deaf(), 0, 0, env, depth);
  }

  lemma DeafInv()
    ensures Inv(Deaf()) && LiveOffer(Deaf().orders, 0, 0)
  {
    hide RowOk, SeatedOffer;
    var db := Deaf();
    assert db.roster[0] == 0 && db.roster[1] == 1;
    DeafRow();
    DeafSeat();
  }

  lemma DeafRow()
    ensures RowOk(Deaf().orders[0])
  {
  }

  lemma DeafSeat()
    ensures SeatedOffer(Deaf(), 0, 0)
  {
  }

  lemma DeafStuck(env: Env)
    requires 0 !in env.cards
    ensures 0 in Deaf().orders && 0 in Deaf().drivers && Stuck(SilentState(Deaf(), 0, 0, env), 0, env)
  {
    hide Repair, Pick, HasWaiting, ClaimTrip;
    var free := SilentState(Deaf(), 0, 0, env);
    OnlyWaits(free, 1, VillageLine(Pashiya));
  }

  // Driver d waits on the line, and nobody else is online.
  lemma OnlyWaits(db: Db, d: DriverId, line: Line)
    requires RosterOk(db) && DistinctPositions(db.queue) && d in db.drivers && d in db.queue && line in db.lines
    requires db.drivers[d] == Driver(true, Online, true, false, false, true, Some(line))
    requires db.queue[d].status == Waiting && db.queue[d].line == Some(line)
    requires forall e :: e in db.drivers && e != d ==> db.drivers[e].status != Online
    requires forall o :: o in db.orders ==>
               db.orders[o].driver != Some(d) && db.orders[o].reserved != Some(d) && db.orders[o].offered != Some(d)
    ensures HasWaiting(db, line, {}) && !HasWaiting(db, line, {d})
  {
    hide Repair, HasWaiting;
    KeepsWaiting(db, d, line);
    WaitingMeans(db, line, {});
    WaitingMeans(db, line, {d});
    RepairFrame(db);
    assert Eligible(Repair(db), line, {}, d);
  }

  // ---------------------------------------------------------------- personal requests

  // A refusal closes a personal request; it is never passed on. Neither is it
  // after silence, or when the driver turns out to have no car.
  lemma PersonalRequestRefused(db: Db, o: OrderId, d: DriverId, reason: Reason, env: Env, depth: nat)
    requires Inv(db) && LiveOffer(db.orders, o, d) && d in db.drivers && db.orders[o].request.requested.Some?
    ensures var r := Decline(db, o, d, reason, env, depth).db; o in r.orders && r.orders[o].status == Cancelled
  {
    hide InvDuring, TryPromote, AfterRefusal, RowOk, RowLaw, OnlyDriver, OfferToNextDriver;
    OfferedIsSearching(db, o);
    ReleaseIsLocal(db, d, reason);
    RefusedOk(db.orders[o], d, reason, env);
    ClosedByPromotion(db, o, d, Refused(db.orders[o], d, reason, env), AfterRefusal(db, d, reason), env, depth);
  }

  lemma PersonalRequestUnanswered(db: Db, o: OrderId, d: DriverId, env: Env, depth: nat)
    requires Inv(db) && LiveOffer(db.orders, o, d) && d in db.drivers && db.orders[o].request.requested.Some?
    ensures var r := AcceptTimeout(db, o, d, env, depth).db; o in r.orders && r.orders[o].status == Cancelled
  {
    hide InvDuring, TryPromote, OffLine, RowOk, RowLaw, OnlyDriver, OfferToNextDriver;
    OfferedIsSearching(db, o);
    OffLineIsLocal(db, d);
    WithdrawnClosed(db.orders[o], d, env);
    ClosedByPromotion(db, o, d, Withdrawn(db.orders[o], env).(status := Cancelled), OffLine(db, d), env, depth);
  }

  lemma PersonalRequestWithoutCar(db: Db, o: OrderId, d: DriverId, env: Env, depth: nat)
    requires Inv(db) && LiveOffer(db.orders, o, d) && d in db.drivers && db.orders[o].request.requested.Some?
    requires !db.drivers[d].carReady && !db.drivers[d].suspended
    ensures var r := Accept(db, o, d, env, depth).db; o in r.orders && r.orders[o].status == Cancelled
  {
    hide InvDuring, TryPromote, OffLine, RowOk, RowLaw, OnlyDriver, OfferToNextDriver;
    OfferedIsSearching(db, o);
    OffLineIsLocal(db, d);
    RefusedRow(db.orders[o], d, false, env);
    ClosedByPromotion(db, o, d, WithRefusal(Withdrawn(db.orders[o], env), d, false).(status := Cancelled),
                      OffLine(db, d), env, depth);
  }

  lemma ClosedByPromotion(db: Db, o: OrderId, d: DriverId, row: Order, moved: Db, env: Env, depth: nat)
    requires Inv(db) && LiveOffer(db.orders, o, d) && d in db.drivers && OnlyDriver(db, moved, d)
    requires RowOk(row) && Holder(row).None? && row.slot == NO_ROUTE_OFFER && RowLaw(db.orders[o], row)
    requires row.status == Cancelled
    ensures var r := TryPromote(Put(moved, o, row), env, depth).db; o in r.orders && r.orders[o] == row
  {
    hide InvDuring, Lawful, TryPromote, OnlyDriver, RowOk, RowLaw, Calm;
    OfferFreed(db, o, d, row, moved, env);
    TryPromoteKeeps(Put(moved, o, row), env, depth, None);
    CalmRow(Put(moved, o, row), TryPromote(Put(moved, o, row), env, depth).db, o);
  }

  // Unless its driver claims another order from the chat: then it goes to
  // whoever stands first on its stage line, who is not the driver it was meant for.
  lemma PersonalRequestLeaks(db: Db, o: OrderId, d: DriverId, p: OrderId, env: Env, depth: nat)
    requires Inv(db) && ChatOpen(db, o, d) && OfferOf(db, d) == Some(p) && p != o && depth >= 1
    requires db.orders[p].request.requested == Some(d)
    ensures p in LeftBehind(db, o, d, p, env).orders
    ensures var t := LeftBehind(db, o, d, p, env);
      var r := Step(db, ClaimsFromChat(o, d), env, depth);
      HasEligible(t, p) ==>
        p in r.orders && r.orders[p].request.requested == Some(d) && r.orders[p].offered.Some?
        && r.orders[p].offered.value != d && LiveOffer(r.orders, p, r.orders[p].offered.value)
  {
    hide InvDuring, TakeOver, Readied, OfferToNextDriver, HasClaim, OfferedTo, HasWaiting;
    var freed := Put(ReleaseOffer(db, d), p, db.orders[p].(offered := None));
    var t := LeftBehind(db, o, d, p, env);
    OfferOfIsOffer(db, d);
    ChatRideNone(db, o, d);
    FreedFrame(db, d, p, db.orders[p].(offered := None));
    TakenLeaves(Readied(freed, d), o, d, !freed.drivers[d].onLine, p, env);
    OfferedIsSearching(db, p);
    assert t.orders[p] == db.orders[p].(offered := None);
    if HasEligible(t, p) {
      OfferedToFirst(t, p, d, env, depth);
    }
  }

  // The state in which the personal request looks for somebody else.
  function LeftBehind(db: Db, o: OrderId, d: DriverId, p: OrderId, env: Env): Db
    requires o in db.orders && d in db.drivers && p in db.orders
  {
    var freed := Put(ReleaseOffer(db, d), p, db.orders[p].(offered := None));
    TakeOver(Readied(freed, d), o, d, !freed.drivers[d].onLine, env)
  }

  lemma TakenLeaves(db: Db, o: OrderId, d: DriverId, offline: bool, p: OrderId, env: Env)
    requires o in db.orders && d in db.drivers && p in db.orders && p != o
    ensures var t := TakeOver(db, o, d, offline, env);
      && p in t.orders && t.orders[p] == db.orders[p] && d in t.drivers && t.drivers[d].status == Busy
  {
  }

  lemma OfferedToFirst(t: Db, p: OrderId, d: DriverId, env: Env, depth: nat)
    requires p in t.orders && d in t.drivers && t.drivers[d].status == Busy && depth >= 1
    requires t.orders[p].status == Searching && t.orders[p].driver.None? && t.orders[p].reserved.None?
    requires t.orders[p].offered.None? && HasEligible(t, p)
    ensures var r := OfferToNextDriver(t, p, {}, None, env, depth).db;
      && p in r.orders && r.orders[p].offered.Some? && r.orders[p].offered.value != d
      && r.orders[p].request == t.orders[p].request && LiveOffer(r.orders, p, r.orders[p].offered.value)
  {
    hide Repair, HandleNoDriver, PickFrom;
    RepairFrame(t);
    var mid := Repair(t);
    assert t.orders[p].notes.declined + {} == t.orders[p].notes.declined;
    PickFromIsLeast(mid, StageLine(t.orders[p]), t.orders[p].notes.declined, 0);
  }

  // ---------------------------------------------------------------- a refused ride

  // The check that follows closes the card of driver d: the order is given out.
  predicate CardGoes(db: Db, d: DriverId, env: Env)
  {
    var a := CheckActs(db, env);
    a.Some? && a.value.db.orders[a.value.order].slot.driver == Some(d) && GivesOut(a.value, env)
  }

  // A refusal keeps the invariant if and only if its driver has no reservation and no
  // card, or, from the chat, the opportunity check that follows closes his card by
  // chance, or cannot end and undoes everything.
  lemma RefusalStepIff(db: Db, o: OrderId, fromChat: bool, env: Env, depth: nat)
    requires Inv(db) && o in db.orders && db.orders[o].status == Assigned && db.orders[o].driver.Some? && depth >= 2
    ensures var d := db.orders[o].driver.value; var x := RefusedRide(db, o, fromChat);
      Inv(Step(db, RefusesRide(o, fromChat), env, depth)) <==>
        || (!HasClaim(db.orders, d, Reservation) && (NoSlotOf(db.orders, d) || (fromChat && CardGoes(x, d, env))))
        || (fromChat && Wedged(x, env))
  {
    hide InvDuring, Step, Attempt, HasClaim, NoSlotOf, RowOk, RefusedRide, TryPromote, Wedged, CardGoes;
    RefusalOfRide(db, o, fromChat, env, depth);
    var d := db.orders[o].driver.value;
    var x := RefusedRide(db, o, fromChat);
    RefusalKeepsIff(db, o, fromChat);
    if fromChat {
      RefusedSteady(db, o);
      CheckDeepIff(x, env, depth);
      if !Wedged(x, env) {
        if HasClaim(db.orders, d, Reservation) { RefusalLeaves(db, o, fromChat, env, depth); }
        else if NoSlotOf(db.orders, d) {
          RefuseRideSound(db, o, fromChat, env, depth);
          SoundOutcome(db, RefuseRide(db, o, fromChat, env, depth));
        } else { RefusedCardIff(db, o, d, env, depth); }
      }
    }
  }

  lemma RefusedSteady(db: Db, o: OrderId)
    requires Inv(db) && o in db.orders && db.orders[o].status == Assigned && db.orders[o].driver.Some?
    ensures Steady(RefusedRide(db, o, true))
  {
    hide InvDuring, RefusedRide, RosterOk, DistinctPositions, RowOk, ParkedOk;
    var x := RefusedRide(db, o, true);
    RefusedOrders(db, o, true);
    RefusedTable(db, o, true);
    RowPartsOf(db, o, None);
    ClosedElsewhere(db, o, db.orders[o].(status := Cancelled));
    RefusedQueue(db, o) by { RosterPart(db, None); }
    forall a | a in x.orders ensures RowOk(x.orders[a]) {
      RowPartsOf(db, a, None);
      CancelledRow(db.orders[a]);
    }
  }

  lemma CancelledRow(row: Order)
    requires RowOk(row)
    ensures row.status == Assigned ==> RowOk(row.(status := Cancelled))
  {
  }

  lemma RefusedQueue(db: Db, o: OrderId)
    requires RosterOk(db) && DistinctPositions(db.queue) && o in db.orders
    ensures RosterOk(RefusedRide(db, o, true)) && DistinctPositions(RefusedRide(db, o, true).queue)
  {
    hide OffLine, RestorePosition, DistinctPositions, RosterOk;
    var row := db.orders[o];
    var closed := Put(db, o, row.(status := Cancelled));
    assert RosterOk(closed) by { SameOrdersTable(db, o, row.(status := Cancelled)); }
    if row.driver.Some? && row.driver.value in db.drivers {
      OffLineTable(closed, row.driver.value);
      RestoredTable(closed, row.driver.value);
    }
  }

  lemma SameOrdersTable(db: Db, o: OrderId, row: Order)
    requires RosterOk(db) && o in db.orders
    ensures RosterOk(Put(db, o, row))
  {
  }

  lemma OffLineTable(db: Db, d: DriverId)
    requires RosterOk(db) && DistinctPositions(db.queue) && d in db.drivers
    ensures RosterOk(OffLine(db, d)) && DistinctPositions(OffLine(db, d).queue)
  {
    assert OffLine(db, d).drivers.Keys == db.drivers.Keys;
  }

  lemma RestoredTable(db: Db, d: DriverId)
    requires RosterOk(db) && DistinctPositions(db.queue) && d in db.drivers
    ensures RosterOk(RestorePosition(db, d)) && DistinctPositions(RestorePosition(db, d).queue)
  {
    hide DistinctPositions;
    SamePositions(db.queue, d);
    assert RestorePosition(db, d).drivers.Keys == db.drivers.Keys;
  }

  lemma SamePositions(queue: Queue, d: DriverId)
    requires DistinctPositions(queue)
    ensures DistinctPositions(SetRowStatus(queue, d, Waiting))
  {
  }

  // With a card alone everything depends on the check.
  lemma RefusedCardIff(db: Db, o: OrderId, d: DriverId, env: Env, depth: nat)
    requires Inv(db) && o in db.orders && db.orders[o].status == Assigned && db.orders[o].driver == Some(d)
    requires !HasClaim(db.orders, d, Reservation) && !NoSlotOf(db.orders, d)
    requires TryPromote(RefusedRide(db, o, true), env, depth).Done?
    ensures Inv(TryPromote(RefusedRide(db, o, true), env, depth).db) <==> CardGoes(RefusedRide(db, o, true), d, env)
  {
    hide InvDuring, HasClaim, RowOk, RefusedRide, TryPromote, GivesOut, CheckActs, Custody.Sane, Custody.Tame;
    var x := RefusedRide(db, o, true);
    var r := TryPromote(x, env, depth).db;
    RowPartsOf(db, o, None);
    RiderNamed(db.orders[o]);
    RefusedOrders(db, o, true);
    RefusedTable(db, o, true);
    RefusedDuring(db, o, d, true);
    if CardGoes(x, d, env) {
      CardGivenOut(x, d, env, depth);
    } else {
      var q :| q in db.orders && db.orders[q].slot.driver == Some(d);
      CardIsLive(db, q, d);
      RidingHasNoCard(db, o, d);
      CardChecked(x, q, env, depth);
      if Inv(r) {
        SlotOnARide(r, q, d);
        var b :| b in r.orders && Owns(r.orders[b], d, Ride);
        CustodyRuns.InvSane(db);
        RefusedSane(db, x, o);
        Custody.PromoteTame(x, env, depth);
        NoRideBack(db, x, r, o, d, b, env, depth, true);
      }
    }
  }

  lemma CardIsLive(db: Db, q: OrderId, d: DriverId)
    requires Inv(db) && q in db.orders && db.orders[q].slot.driver == Some(d)
    ensures Carded(db.orders[q])
  {
    assert RowOk(db.orders[q]);
  }

  lemma RidingHasNoCard(db: Db, o: OrderId, d: DriverId)
    requires Inv(db) && o in db.orders && db.orders[o].status == Assigned
    ensures db.orders[o].slot.driver.None?
  {
    assert RowOk(db.orders[o]);
  }

  // The order with the card is handed on without it.
  lemma CardGivenOut(x: Db, d: DriverId, env: Env, depth: nat)
    requires InvDuring(x, Some(d)) && !HasClaim(x.orders, d, Reservation) && !HasClaim(x.orders, d, Ride)
    requires CardGoes(x, d, env)
    ensures Inv(TryPromote(x, env, depth).db)
  {
    hide InvDuring, HasClaim, TryPromote, CheckActs, Calm, Unparked, OfferToNextDriver, DriverInReach, AsksFirst;
    hide Steady, Repair;
    var a := CheckActs(x, env).value;
    InvSteady(x, Some(d));
    CheckIs(x, env, depth);
    CheckDuring(x, env, Some(d));
    NoClaimStays(x, a.db, d, Some(d));
    UnparkedKeeps(a.db, a.order, Some(d));
    var u := Unparked(a.db, a.order);
    CardCleared(a.db, u, a.order, d);
    Close(u, d);
    var row := a.db.orders[a.order];
    OfferKeeps(u, a.order, {}, if RouteCity(row).Some? then Some(StageLine(row)) else None, env, depth, None);
    GivesOutIs(a, env, depth) by { LevelOf(a.db, a.order); QueuedOpen(a.db, a.order); }
  }

  lemma NoClaimStays(x: Db, r: Db, d: DriverId, e: Option<DriverId>)
    requires InvDuring(x, e) && Calm(x, r) && !HasClaim(x.orders, d, Reservation) && !HasClaim(x.orders, d, Ride)
    ensures !HasClaim(r.orders, d, Reservation) && !HasClaim(r.orders, d, Ride)
  {
    InvParts(x, e);
    CalmClaims(x, r, d, Reservation);
    CalmClaims(x, r, d, Ride);
  }

  lemma CardCleared(db: Db, u: Db, q: OrderId, d: DriverId)
    requires InvDuring(db, Some(d)) && q in db.orders && db.orders[q].slot.driver == Some(d) && u == Unparked(db, q)
    requires !HasClaim(db.orders, d, Reservation) && !HasClaim(db.orders, d, Ride) && db.orders[q].status == Queued
    ensures NoSlotOf(u.orders, d) && !HasClaim(u.orders, d, Reservation)
  {
    hide Unpark;
    assert RowOk(db.orders[q]);
    forall b | b in u.orders ensures u.orders[b].slot.driver != Some(d) && !Owns(u.orders[b], d, Reservation) {
      if b != q { assert db.orders[b].slot.driver != Some(d) && !Owns(db.orders[b], d, Reservation); }
    }
  }

  lemma QueuedOpen(db: Db, q: OrderId)
    requires q in db.orders && Level(db, q) && db.orders[q].status == Queued
    ensures Candidate(db.orders[q].status) && db.orders[q].driver.None? && db.orders[q].reserved.None?
  {
  }

  lemma GivesOutIs(a: Acting, env: Env, depth: nat)
    requires a.order in a.db.orders && GivesOut(a, env) && Candidate(a.db.orders[a.order].status)
    requires a.db.orders[a.order].driver.None? && a.db.orders[a.order].reserved.None?
    ensures var row := a.db.orders[a.order]; var line := if RouteCity(row).Some? then Some(StageLine(row)) else None;
      ServeOne(a.db, a.order, env, depth)
        == Acted(OfferToNextDriver(Unparked(a.db, a.order), a.order, {}, line, env, depth))
  {
    hide DriverInReach, OfferToNextDriver, Unparked;
  }

  lemma RefusalOfRide(db: Db, o: OrderId, fromChat: bool, env: Env, depth: nat)
    ensures var r := RefuseRide(db, o, fromChat, env, depth);
      && Attempt(db, RefusesRide(o, fromChat), env, depth) == r
      && Step(db, RefusesRide(o, fromChat), env, depth) == if r.Done? then r.db else db
  {
    hide RefuseRide;
  }

  // The reservation stays, with no ride in front of it.
  lemma RefusalLeaves(db: Db, o: OrderId, fromChat: bool, env: Env, depth: nat)
    requires Inv(db) && o in db.orders && db.orders[o].status == Assigned && db.orders[o].driver.Some?
    requires HasClaim(db.orders, db.orders[o].driver.value, Reservation)
    ensures !Inv(RefuseRide(db, o, fromChat, env, depth).db)
  {
    hide InvDuring, RefusedRide, TryPromote, Custody.Sane, Custody.Tame, RowOk;
    var d := db.orders[o].driver.value;
    var x := RefusedRide(db, o, fromChat);
    var r := RefuseRide(db, o, fromChat, env, depth).db;
    RefusedOrders(db, o, fromChat);
    RefusedTable(db, o, fromChat);
    CustodyRuns.InvSane(db);
    RefusedSane(db, x, o);
    Custody.PromoteTame(x, env, depth);
    var a :| a in db.orders && Owns(db.orders[a], d, Reservation);
    if Inv(r) {
      UnparkedStays(db, x, a, env, depth);
      assert Owns(r.orders[a], d, Reservation);
      BehindARide(r, a, d);
      var b :| b in r.orders && Owns(r.orders[b], d, Ride);
      NoRideBack(db, x, r, o, d, b, env, depth, fromChat);
    }
  }

  lemma RefusedTable(db: Db, o: OrderId, fromChat: bool)
    requires o in db.orders
    ensures var x := RefusedRide(db, o, fromChat); x.parked == db.parked && x.nextOrder == db.nextOrder
  {
  }

  lemma RefusedSane(db: Db, x: Db, o: OrderId)
    requires Custody.Sane(db) && o in db.orders && x.nextOrder == db.nextOrder
    requires x.orders == db.orders[o := db.orders[o].(status := Cancelled)]
    ensures Custody.Sane(x)
  {
  }

  lemma UnparkedStays(db: Db, x: Db, a: OrderId, env: Env, depth: nat)
    requires Inv(db) && a in db.orders && a in x.orders && db.orders[a].status != Queued && x.parked == db.parked
    ensures var r := TryPromote(x, env, depth).db; a in r.orders && r.orders[a] == x.orders[a]
  {
    hide TryPromote;
    CheckLeavesOthers(x, a, env, depth);
  }

  lemma NoRideBack(db: Db, x: Db, r: Db, o: OrderId, d: DriverId, b: OrderId, env: Env, depth: nat, fromChat: bool)
    requires Inv(db) && o in db.orders && Owns(db.orders[o], d, Ride) && x.parked == db.parked
    requires x.orders == db.orders[o := db.orders[o].(status := Cancelled)]
    requires r == x || r == TryPromote(x, env, depth).db
    requires Custody.Tame(x, TryPromote(x, env, depth).db, Custody.NOBODY)
    requires b in r.orders
    ensures !Owns(r.orders[b], d, Ride)
  {
    hide InvDuring, TryPromote, Custody.Tame;
    SlotsOnRide(db, o, d);
    RowPartsOf(db, b, None);
    if r != x {
      Custody.TameKeys(x, r, Custody.NOBODY, b);
      if db.orders[b].status != Queued { UnparkedStays(db, x, b, env, depth); }
    }
  }

  // ---------------------------------------------------------------- the broken car

  // A driver on the way to the village his reserved order starts from.
  function OnTheRoad(): Db
  {
    Db(map[0 := Order(Assigned, Request(7, false, false, Route(None, None, Some(Pashiya), None, false), None),
                      Some(0), None, false, None, false, NO_ROUTE_OFFER, false, CLEAN_NOTES.(departed := Some(0))),
           1 := Order(ParallelAssigned, Request(8, false, false, PASHIYA_ROUTE, None),
                      Some(0), None, false, Some(0), true, NO_ROUTE_OFFER, false, CLEAN_NOTES)],
       2, [0],
       map[0 := Driver(true, Busy, true, false, false, true, Some(Gorno))],
       map[0 := QueueRow(OnRide, Some(Gorno), 1)],
       [], map[], 0, {Gorno, VillageLine(Pashiya)})
  }

  // A broken car whose driver has no card leaves a sound state if and only if no card
  // comes back to him in the course of it, or the transaction cannot end and undoes
  // everything.
  lemma CarFailureIff(db: Db, d: DriverId, env: Env, depth: nat)
    requires Inv(db) && NoSlotOf(db.orders, d) && depth >= 2
    ensures CarMayBreak(db, d, env) <==> !CardComesBack(db, d, env)
    ensures Inv(Step(db, DriverCancels(d, CarBroken), env, depth))
      <==> CarMayBreak(db, d, env) || BreakdownUndone(db, d, env, depth)
  {
    hide *;
    CarIsStep(db, d, env, depth);
    MayBreakIff(db, d, env);
    BreakdownUndoneIff(db, d, env, depth);
    if CarMayBreak(db, d, env) {
      CarMayBreakSuffices(db, d, env, depth);
      CarFailureSound(db, d, env, depth);
      SoundOutcome(db, DriverCancel(db, d, CarBroken, env, depth));
    } else if DriverCancel(db, d, CarBroken, env, depth).Done? {
      var a := CardStays(db, d, env, depth);
    }
  }

  lemma CarIsStep(db: Db, d: DriverId, env: Env, depth: nat)
    ensures var r := DriverCancel(db, d, CarBroken, env, depth);
      && Attempt(db, DriverCancels(d, CarBroken), env, depth) == r
      && Step(db, DriverCancels(d, CarBroken), env, depth) == if r.Done? then r.db else db
  {
    hide DriverCancel;
  }

  lemma SoundOutcome(db: Db, r: Outcome)
    requires Sound(db, r)
    ensures r.Done? ==> Inv(r.db)
  {
  }

  // With nobody online there is no roll-back.
  lemma BreakdownIff(db: Db, d: DriverId, env: Env, depth: nat)
    requires Inv(db) && NoSlotOf(db.orders, d) && NobodyOnline(db) && depth >= 2
    ensures Inv(Step(db, DriverCancels(d, CarBroken), env, depth)) <==> CarMayBreak(db, d, env)
  {
    hide *;
    CarFailureIff(db, d, env, depth);
    BreakdownEnds(db, d, env, depth);
  }

  // His car breaks down: the reservation goes back to the pool and at once
  // returns to him as an automatic offer for the trip he has abandoned.
  lemma BrokenCarGetsCard(env: Env, depth: nat)
    requires 1 in env.cards && depth >= 2
    ensures var r := Step(OnTheRoad(), DriverCancels(0, CarBroken), env, depth);
      && Inv(OnTheRoad()) && !Inv(r)
      && 1 in r.orders && r.orders[1].slot.driver == Some(0) && r.orders[1].slot.trip == Some(0)
      && (0 in r.orders ==> !Owns(r.orders[0], 0, Ride))
  {
    hide Inv, Step, Attempt, DriverCancel, CardComesBack, BreakdownUndone;
    hide RideOf, ReservationOf, NoSlotOf, NobodyOnline, OnTheRoad;
    RoadInv();
    RoadFinds();
    RoadCard(env);
    CarIsStep(OnTheRoad(), 0, env, depth);
    BreakdownEnds(OnTheRoad(), 0, env, depth);
    BreakdownUndoneIff(OnTheRoad(), 0, env, depth);
    var a := CardStays(OnTheRoad(), 0, env, depth);
    assert a == 1 by { RoadTwo(); }
  }

  lemma RoadTwo()
    ensures OnTheRoad().orders.Keys == {0, 1}
  {
  }

  lemma RoadCard(env: Env)
    requires 1 in env.cards
    ensures CardComesBack(OnTheRoad(), 0, env) && NoSlotOf(OnTheRoad().orders, 0) && NobodyOnline(OnTheRoad())
  {
    hide RideOf, ReservationOf, Repark, HasWaiting, ClaimTrip, Repair, Acts, PassedOver;
    RoadFinds();
    RoadParks();
    var p := RoadParked();
    RepairFrame(p);
    RoadTrip(p.orders);
    assert With(p.parked, Polling) == [] && With(p.parked, ParkWaiting) == [1] by { assert p.parked[1..] == []; }
    assert p.(parked := p.parked) == p;
    RoadPasses(Repair(p), env);
  }

  lemma RoadPasses(r: Db, env: Env)
    requires r.orders == OnTheRoad().orders[1 := Unreserved(OnTheRoad().orders[1])] && r.nextOrder == 2
    requires 1 in env.cards && NobodyOnline(r) && ClaimTrip(r.orders, 1, 2) == Some(0)
    ensures 1 in r.orders && !Acts(r, 1, env) && PassedOver(r, 1, env).orders[1].slot.driver == Some(0)
  {
    hide Repair, HasWaiting, ClaimTrip;
    NobodyWaits(r, StageLine(r.orders[1]), {});
    RepairFrame(r);
  }

  lemma RoadInv()
    ensures Inv(OnTheRoad())
  {
    hide OrdersInv, Seated;
    var db := OnTheRoad();
    assert db.roster[0] == 0;
    RoadOrders();
    RoadSeats();
  }

  lemma RoadOrders()
    ensures OrdersInv(OnTheRoad().orders, None)
  {
    hide RowOk, OnTrip;
    var db := OnTheRoad();
    RoadRows();
    assert Owns(db.orders[0], 0, Ride);
    assert HasClaim(db.orders, 0, Ride);
  }

  lemma RoadSeats()
    ensures Seated(OnTheRoad())
  {
    hide SeatedOffer;
  }

  lemma RoadRows()
    ensures RowOk(OnTheRoad().orders[0]) && RowOk(OnTheRoad().orders[1])
  {
  }

  lemma RoadFinds()
    ensures RideOf(OnTheRoad(), 0) == Some(0) && ReservationOf(OnTheRoad(), 0) == Some(1)
  {
    var db := OnTheRoad();
    assert !Locks(db.orders[1], 0);
    assert Locks(db.orders[0], 0);
    assert RideBelow(db.orders, 0, 1) == Some(0);
    assert ReservedBelow(db.orders, 0, 0) == None;
    assert ReservedBelow(db.orders, 0, 1) == None;
  }

  // The reserved order, parked.
  function RoadParked(): Db { Repark(OnTheRoad(), 1) }

  lemma RoadParks()
    ensures 1 in OnTheRoad().orders
    ensures var p := RoadParked();
      && p.parked == [Parked(1, ParkWaiting)] && p.orders == OnTheRoad().orders[1 := Unreserved(OnTheRoad().orders[1])]
      && p == OnTheRoad().(orders := p.orders, parked := p.parked)
  {
    var db := OnTheRoad();
    var mid := Put(db, 1, Unreserved(db.orders[1]));
    assert !IsParked(mid.parked, 1);
    assert mid.orders[1 := mid.orders[1]] == mid.orders;
    assert Enqueue(mid, 1).parked == [Parked(1, ParkWaiting)];
    assert SetPark([Parked(1, ParkWaiting)], 1, ParkWaiting) == [Parked(1, ParkWaiting)];
  }

  lemma RoadTrip(orders: Orders)
    requires orders == OnTheRoad().orders[1 := Unreserved(OnTheRoad().orders[1])]
    ensures ClaimTrip(orders, 1, 2) == Some(0)
  {
    assert TripEligible(orders, 0, 1) by {
      assert !ReservedBy(orders, 0);
      assert !RouteOfferedElsewhere(orders, 0, 1);
    }
    assert !TripEligible(orders, 1, 1);
    assert ClaimTrip(orders, 1, 0) == None;
    assert ClaimTrip(orders, 1, 1) == Some(0);
  }
}
