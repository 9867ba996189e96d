// When the opportunity check runs out of stack: exactly if the first parked request
// it acts upon is stuck at that point.
module Wedging {
  import opened Options
  import opened DispatchState
  import opened OrderTable
  import opened DriverLine
  import opened Cascade
  import opened CascadeInv
  import opened CascadeDepth
  import opened Frames
  import opened PassengerQueue
  import opened Asking

  // ---------------------------------------------------------------- one request

  // The state from which the fallback hands an order to a line, if it does.
  function FallbackHands(db: Db, o: OrderId): (t: Option<Db>)
    requires o in db.orders
    ensures t.Some? ==> o in t.value.orders
  {
    var row := db.orders[o];
    if !Candidate(row.status) || row.driver.Some? || row.reserved.Some? then None
    else
      var p := Parking(db, o);
      var village := RouteCity(row).Some? && !row.fallback;
      if village && HasWaiting(p, VillageLine(RouteCity(row).value), {}) then Some(Unparked(Repair(p), o))
      else GornoHands(if village then Repair(p) else p, o)
  }

  function GornoHands(db: Db, o: OrderId): (t: Option<Db>)
    requires o in db.orders
    ensures t.Some? ==> o in t.value.orders
  {
    var f := Put(db, o, db.orders[o].(fallback := true));
    if HasWaiting(f, Gorno, {}) then Some(Unparked(Repair(f), o)) else None
  }

  // The state from which the check hands a parked order to a line, if it does.
  function ServiceHands(db: Db, o: OrderId, env: Env): (t: Option<Db>)
    requires o in db.orders
    ensures t.Some? ==> o in t.value.orders
  {
    var row := db.orders[o];
    if DriverInReach(db, o) then
      if AsksFirst(row, o, env) || !Candidate(row.status) || row.driver.Some? || row.reserved.Some? then None
      else Some(Unparked(db, o))
    else if !TripInReach(db, o) then
      if RouteCity(row).Some? && !row.fallback then FallbackHands(db, o) else None
    else
      var n := NotifyBusyDrivers(db, o, env);
      if n.created then None else FallbackHands(n.db, o)
  }

  // All that the end of the check rests on: it holds in every state of the
  // invariant, and in some that are not.
  ghost predicate Steady(db: Db)
  {
    && RosterOk(db) && DistinctPositions(db.queue) && ParkedOk(db.orders, db.parked)
    && (forall o :: o in db.orders ==> RowOk(db.orders[o]))
  }

  lemma InvSteady(db: Db, e: Option<DriverId>)
    requires InvDuring(db, e)
    ensures Steady(db)
  {
  }

  // The part of it about the drivers and one order.
  ghost predicate Level(db: Db, o: OrderId)
    requires o in db.orders
  {
    RosterOk(db) && DistinctPositions(db.queue) && RowOk(db.orders[o])
  }

  lemma RepairedLevel(db: Db, o: OrderId)
    requires o in db.orders && Level(db, o)
    ensures Level(Repair(db), o)
  {
    hide RepairAll, RowOk;
    RepairDoes(db);
  }

  lemma HandedOut(db: Db, o: OrderId)
    requires o in db.orders && Level(db, o) && db.orders[o].status == Queued
    ensures var u := Unparked(db, o);
      && Ready(u, o) && StageLine(u.orders[o]) == StageLine(db.orders[o])
      && RouteCity(u.orders[o]) == RouteCity(db.orders[o])
  {
    UnparkDoes(db.parked, o);
  }

  lemma ParkedLevel(db: Db, o: OrderId)
    requires o in db.orders && Level(db, o) && Candidate(db.orders[o].status) && db.orders[o].driver.None?
    requires db.orders[o].reserved.None?
    ensures var p := Parking(db, o);
      Level(p, o) && p.orders[o] == ClearRoute(db.orders[o]).(etaChosen := false, status := Queued)
  {
    hide SetPark;
  }

  lemma FallbackIs(db: Db, o: OrderId, env: Env, depth: nat)
    requires o in db.orders && Level(db, o)
    ensures var t := FallbackHands(db, o); var r := Fallback(db, o, true, env, depth);
      if t.None? then r.Done?
      else r == OfferToNextDriver(t.value, o, {}, Some(StageLine(t.value.orders[o])), env, depth) && Ready(t.value, o)
  {
    hide Ready, Level, Repair, OfferToNextDriver, EnterFallback, GornoHands, HasWaiting, Parking, Unparked, RowOk;
    var row := db.orders[o];
    if Candidate(row.status) && row.driver.None? && row.reserved.None? {
      var p := Parking(db, o);
      ParkedLevel(db, o);
      RepairFrame(p);
      RepairedLevel(p, o);
      if RouteCity(row).Some? && !row.fallback {
        if HasWaiting(p, VillageLine(RouteCity(row).value), {}) { HandedOut(Repair(p), o); }
        else { GornoIs(Repair(p), o, env, depth); }
      } else {
        GornoIs(p, o, env, depth);
      }
    }
  }

  lemma GornoIs(db: Db, o: OrderId, env: Env, depth: nat)
    requires o in db.orders && Level(db, o) && db.orders[o].status == Queued && db.orders[o].slot.driver.None?
    ensures var t := GornoHands(db, o); var r := EnterFallback(db, o, env, depth);
      if t.None? then r.Done?
      else r == OfferToNextDriver(t.value, o, {}, Some(StageLine(t.value.orders[o])), env, depth) && Ready(t.value, o)
  {
    hide Ready, Repair, OfferToNextDriver, HasWaiting, Unparked, RosterOk, DistinctPositions;
    var f := Put(db, o, db.orders[o].(fallback := true));
    assert Level(f, o) by { FlaggedLevel(db, o); }
    RepairFrame(f);
    RepairedLevel(f, o);
    HandedOut(Repair(f), o);
  }

  lemma FlaggedLevel(db: Db, o: OrderId)
    requires o in db.orders && Level(db, o) && db.orders[o].slot.driver.None?
    ensures Level(Put(db, o, db.orders[o].(fallback := true)), o)
  {
  }

  // What serving a request does, given the state from which it is handed out.
  lemma ServiceIs(db: Db, o: OrderId, env: Env, depth: nat)
    requires o in db.orders && Level(db, o) && db.orders[o].status == Queued
    ensures var t := ServiceHands(db, o, env); var s := ServeOne(db, o, env, depth);
      if t.None? then s.Passed? || s.result.Done?
      else
        && s.Acted? && Ready(t.value, o)
        && exists line: Option<Line> :: (line.Some? ==> line.value == StageLine(t.value.orders[o]))
             && s.result == OfferToNextDriver(t.value, o, {}, line, env, depth)
  {
    hide Ready, Level, Fallback, FallbackHands, OfferToNextDriver;
    hide NotifyBusyDrivers, Unparked, DriverInReach, TripInReach;
    hide StageLine, RouteCity;
    FallbackIs(db, o, env, depth);
    HandedOut(db, o);
    var n := NotifyBusyDrivers(db, o, env);
    if !n.created {
      NotNotified(db, o, env);
      FallbackIs(n.db, o, env, depth);
    }
  }

  lemma NotNotified(db: Db, o: OrderId, env: Env)
    requires o in db.orders && Level(db, o) && !NotifyBusyDrivers(db, o, env).created
    ensures Level(NotifyBusyDrivers(db, o, env).db, o)
  {
    hide Repair, HasWaiting, ClaimTrip, Level;
    RepairedLevel(db, o);
  }

  lemma ServiceDeepIff(db: Db, o: OrderId, env: Env, depth: nat)
    requires o in db.orders && Level(db, o) && db.orders[o].status == Queued && depth >= 2
    ensures var t := ServiceHands(db, o, env); var s := ServeOne(db, o, env, depth);
      s.Acted? && s.result.TooDeep? <==> t.Some? && Stuck(t.value, o, env)
  {
    hide Level, Ready, ServeOne, ServiceHands, OfferToNextDriver, Stuck, StageLine;
    ServiceIs(db, o, env, depth);
    var t := ServiceHands(db, o, env);
    if t.Some? {
      var line: Option<Line> :| (line.Some? ==> line.value == StageLine(t.value.orders[o]))
        && ServeOne(db, o, env, depth).result == OfferToNextDriver(t.value, o, {}, line, env, depth);
      DeepIff(t.value, o, {}, line, env, depth);
    }
  }

  // The cascade itself, in any state.
  lemma DeepIff(db: Db, o: OrderId, skip: set<DriverId>, line: Option<Line>, env: Env, depth: nat)
    requires Ready(db, o) && depth >= 2 && (line.Some? ==> line.value == StageLine(db.orders[o]))
    ensures OfferToNextDriver(db, o, skip, line, env, depth).TooDeep? <==> Stuck(db, o, env)
  {
    hide OfferToNextDriver, Stuck;
    if Stuck(db, o, env) { StuckNeverEnds(db, o, skip, line, env, depth); }
    else { UnstuckEnds(db, o, skip, line, env, depth); }
  }

  // ---------------------------------------------------------------- the whole check

  // Does the check end with this request?
  predicate Acts(db: Db, o: OrderId, env: Env)
    requires o in db.orders
  {
    var row := db.orders[o];
    || DriverInReach(db, o)
    || (!TripInReach(db, o) && RouteCity(row).Some? && !row.fallback)
    || (TripInReach(db, o) && !NotifyBusyDrivers(db, o, env).created)
  }

  // The state after passing over a request.
  function PassedOver(db: Db, o: OrderId, env: Env): (r: Db)
    requires o in db.orders
    ensures r.orders.Keys == db.orders.Keys
  {
    if TripInReach(db, o) then NotifyBusyDrivers(db, o, env).db else db
  }

  // The first request acted upon, and the state in which it is.
  datatype Acting = Acting(db: Db, order: OrderId)

  function FirstActed(db: Db, waiting: seq<OrderId>, env: Env): (a: Option<Acting>)
    ensures a.Some? ==> a.value.order in a.value.db.orders && a.value.order in waiting
    decreases |waiting|
  {
    if waiting == [] then None
    else if waiting[0] !in db.orders then FirstActed(db, waiting[1..], env)
    else
      var mid := Repair(db);
      if Acts(mid, waiting[0], env) then Some(Acting(mid, waiting[0]))
      else FirstActed(PassedOver(mid, waiting[0], env), waiting[1..], env)
  }

  // Of the whole check.
  function CheckActs(db: Db, env: Env): (a: Option<Acting>)
    ensures a.Some? ==> a.value.order in a.value.db.orders
  {
    var polled := With(db.parked, Polling);
    var mid := if polled == [] then db else Repair(db);
    var parked := if polled == [] then db.parked else PausePrompts(db.parked, None);
    if polled != [] && PromptsStand(mid, polled) then None
    else FirstActed(mid.(parked := parked), With(parked, ParkWaiting), env)
  }

  // It goes round in a circle: the check has no way to end.
  predicate Circles(a: Acting, env: Env)
  {
    a.order in a.db.orders
    && var t := ServiceHands(a.db, a.order, env); t.Some? && Stuck(t.value, a.order, env)
  }

  predicate Wedged(db: Db, env: Env)
  {
    CheckActs(db, env).Some? && Circles(CheckActs(db, env).value, env)
  }

  lemma ActsIs(db: Db, o: OrderId, env: Env, depth: nat)
    requires o in db.orders
    ensures ServeOne(db, o, env, depth).Acted? <==> Acts(db, o, env)
    ensures !Acts(db, o, env) ==> ServeOne(db, o, env, depth) == Passed(PassedOver(db, o, env))
    ensures !Acts(db, o, env) ==> ServiceHands(db, o, env).None?
  {
    hide DriverInReach, TripInReach, NotifyBusyDrivers, Fallback, GivenOut, FallbackHands;
  }

  // Passing over requests leaves a steady state; the first one acted upon ends the
  // check.
  lemma {:induction false} ServeActs(db: Db, waiting: seq<OrderId>, env: Env, depth: nat)
    requires Steady(db) && AllQueued(db, waiting) && Distinct(waiting)
    ensures var a := FirstActed(db, waiting, env); var r := Serve(db, waiting, env, depth);
      if a.None? then r.Done?
      else
        var s := ServeOne(a.value.db, a.value.order, env, depth);
        && Steady(a.value.db) && a.value.db.orders[a.value.order].status == Queued && Repair(a.value.db) == a.value.db
        && s.Acted? && r == s.result
    decreases |waiting|
  {
    hide Steady, Repair, ServeOne, Acts, PassedOver;
    if waiting != [] {
      var mid, q := Repair(db), waiting[0];
      assert q in waiting && q in db.orders && db.orders[q].status == Queued;
      RepairedSteady(db);
      RepairFrame(db);
      ActsIs(mid, q, env, depth);
      if !Acts(mid, q, env) {
        var r := PassedOver(mid, q, env);
        PassedSteady(mid, q, env);
        PassedRest(mid, r, waiting, env, depth, None);
        ServeActs(r, waiting[1..], env, depth);
      }
    }
  }

  lemma RepairedSteady(db: Db)
    requires Steady(db)
    ensures Steady(Repair(db)) && Repair(Repair(db)) == Repair(db)
  {
    hide RepairAll, RowOk;
    RepairDoes(db);
    RepairIdempotent(db);
  }

  lemma PassedSteady(mid: Db, q: OrderId, env: Env)
    requires Steady(mid) && Repair(mid) == mid && q in mid.orders && mid.orders[q].status == Queued
    requires !Acts(mid, q, env)
    ensures var r := PassedOver(mid, q, env);
      Steady(r) && (forall a :: a in mid.orders && a != q ==> a in r.orders && r.orders[a] == mid.orders[a])
    ensures var r := PassedOver(mid, q, env); r.orders[q] == mid.orders[q].(slot := r.orders[q].slot)
  {
    hide Repair, HasWaiting, ClaimTrip, RosterOk, DistinctPositions, RowOk, TripEligible, RouteCity;
    var r := PassedOver(mid, q, env);
    assert RowOk(r.orders[q]) by { PassedRow(mid, q, env); }
    SameTable(mid, r);
  }

  lemma PassedRow(mid: Db, q: OrderId, env: Env)
    requires Repair(mid) == mid && q in mid.orders && mid.orders[q].status == Queued && RowOk(mid.orders[q])
    requires !Acts(mid, q, env)
    ensures RowOk(PassedOver(mid, q, env).orders[q])
  {
    hide Repair, HasWaiting, ClaimTrip;
  }

  lemma SameTable(a: Db, b: Db)
    requires RosterOk(a) && b.orders.Keys == a.orders.Keys && b == a.(orders := b.orders)
    requires ParkedOk(a.orders, a.parked) && (forall o :: o in a.orders ==> b.orders[o].status == a.orders[o].status)
    ensures RosterOk(b) && ParkedOk(b.orders, b.parked)
  {
  }

  lemma LevelOf(db: Db, o: OrderId)
    requires Steady(db) && o in db.orders
    ensures Level(db, o)
  {
  }

  // What the whole check comes to.
  lemma CheckIs(db: Db, env: Env, depth: nat)
    requires Steady(db)
    ensures var a := CheckActs(db, env); var r := TryPromote(db, env, depth);
      if a.None? then r.Done?
      else
        var s := ServeOne(a.value.db, a.value.order, env, depth);
        && Steady(a.value.db) && a.value.db.orders[a.value.order].status == Queued && Repair(a.value.db) == a.value.db
        && s.Acted? && r == s.result
  {
    hide Steady, Repair, Serve, With, PromptsStand, AllQueued, Distinct, FirstActed;
    RepairFrame(db);
    RepairedSteady(db);
    var polled := With(db.parked, Polling);
    var mid := if polled == [] then db else Repair(db);
    if !(polled != [] && PromptsStand(mid, polled)) {
      var parked := if polled == [] then mid.parked else PausePrompts(mid.parked, None);
      var q := mid.(parked := parked);
      assert polled == [] ==> q == mid;
      PausedSteady(mid);
      SteadyQueued(q, ParkWaiting);
      ServeActs(q, With(parked, ParkWaiting), env, depth);
    }
  }

  lemma PausedSteady(db: Db)
    requires Steady(db)
    ensures Steady(db.(parked := PausePrompts(db.parked, None)))
  {
    hide RowOk;
  }

  lemma SteadyQueued(db: Db, s: ParkStatus)
    requires Steady(db)
    ensures AllQueued(db, With(db.parked, s)) && Distinct(With(db.parked, s))
  {
    hide RosterOk, DistinctPositions, RowOk;
    WithParks(db.parked, s);
    forall o | o in With(db.parked, s) ensures o in db.orders && db.orders[o].status == Queued {
      assert Parked(o, s) in db.parked;
    }
  }

  lemma CheckDeepIff(db: Db, env: Env, depth: nat)
    requires Steady(db) && depth >= 2
    ensures TryPromote(db, env, depth).TooDeep? <==> Wedged(db, env)
  {
    hide Steady, CheckActs, Repair, ServeOne, ServiceHands, Stuck, TryPromote;
    CheckIs(db, env, depth);
    var a := CheckActs(db, env);
    if a.Some? {
      LevelOf(a.value.db, a.value.order);
      ServiceDeepIff(a.value.db, a.value.order, env, depth);
    }
  }

  // ---------------------------------------------------------------- cards in the check

  // The check gives a parked order out to a waiting driver, and with that closes the
  // card it has.
  predicate GivesOut(a: Acting, env: Env)
    requires a.order in a.db.orders
  {
    DriverInReach(a.db, a.order) && !AsksFirst(a.db.orders[a.order], a.order, env)
  }

  predicate Carded(row: Order)
  {
    row.slot.driver.Some? && row.slot.trip.Some? && Candidate(row.status)
  }

  // An order with a card keeps its row, unless it is the one given out.
  lemma {:induction false} CardServes(db: Db, waiting: seq<OrderId>, q: OrderId, env: Env, depth: nat)
    requires q in db.orders && Carded(db.orders[q])
    ensures var a := FirstActed(db, waiting, env); var r := Serve(db, waiting, env, depth).db;
      q in r.orders
      && (r.orders[q] == db.orders[q]
          || (a.Some? && a.value.order == q && a.value.db.orders[q] == db.orders[q] && GivesOut(a.value, env)))
    decreases |waiting|
  {
    hide Repair, ServeOne, Acts, PassedOver, GivesOut;
    if waiting != [] {
      if waiting[0] !in db.orders { CardServes(db, waiting[1..], q, env, depth); }
      else {
        var mid, p := Repair(db), waiting[0];
        RepairFrame(db);
        ActsIs(mid, p, env, depth);
        if p == q { CardActs(mid, q, env, depth); } else { ServedAlone(mid, p, env, depth); }
        if !Acts(mid, p, env) { CardServes(PassedOver(mid, p, env), waiting[1..], q, env, depth); }
      }
    }
  }

  lemma CardActs(mid: Db, q: OrderId, env: Env, depth: nat)
    requires q in mid.orders && Carded(mid.orders[q])
    ensures !Acts(mid, q, env) ==> PassedOver(mid, q, env).orders[q] == mid.orders[q]
    ensures Acts(mid, q, env) ==>
              var s := ServeOne(mid, q, env, depth);
              s.Acted? && (GivesOut(Acting(mid, q), env) || s.result.db.orders[q] == mid.orders[q])
  {
    hide Repair, HasWaiting, ClaimTrip, GivenOut, Fallback, DriverInReach;
  }

  lemma CardChecked(db: Db, q: OrderId, env: Env, depth: nat)
    requires q in db.orders && Carded(db.orders[q])
    ensures var a := CheckActs(db, env); var r := TryPromote(db, env, depth).db;
      q in r.orders
      && (r.orders[q] == db.orders[q]
          || (a.Some? && a.value.order == q && a.value.db.orders[q] == db.orders[q] && GivesOut(a.value, env)))
  {
    hide Repair, Serve, With, PromptsStand, FirstActed, PausePrompts, GivesOut;
    RepairFrame(db);
    var polled := With(db.parked, Polling);
    var mid := if polled == [] then db else Repair(db);
    var parked := if polled == [] then db.parked else PausePrompts(db.parked, None);
    CardServes(mid.(parked := parked), With(parked, ParkWaiting), q, env, depth);
  }

  // The state in which the check acts keeps the invariant too.
  lemma {:induction false} ActsDuring(db: Db, waiting: seq<OrderId>, env: Env, e: Option<DriverId>)
    requires InvDuring(db, e) && AllQueued(db, waiting) && Distinct(waiting)
    ensures var a := FirstActed(db, waiting, env);
      a.Some? ==> InvDuring(a.value.db, e) && Calm(db, a.value.db) && a.value.db.orders[a.value.order].status == Queued
    decreases |waiting|
  {
    hide InvDuring, Calm, Repair, ServeOne, Acts, PassedOver;
    if waiting != [] {
      var mid, q := Repair(db), waiting[0];
      assert q in waiting && q in db.orders && db.orders[q].status == Queued;
      RepairCalm(db, e);
      RepairFrame(db);
      ActsIs(mid, q, env, 0);
      ServeOneKeeps(mid, q, env, 0, e);
      if !Acts(mid, q, env) {
        var r := PassedOver(mid, q, env);
        PassedRest(mid, r, waiting, env, 0, e);
        ActsDuring(r, waiting[1..], env, e);
        CalmTrans(db, mid, r);
        var a := FirstActed(r, waiting[1..], env);
        if a.Some? { CalmTrans(db, r, a.value.db); }
      }
    }
  }

  lemma CheckDuring(db: Db, env: Env, e: Option<DriverId>)
    requires InvDuring(db, e)
    ensures var a := CheckActs(db, env);
      a.Some? ==> InvDuring(a.value.db, e) && Calm(db, a.value.db) && a.value.db.orders[a.value.order].status == Queued
  {
    hide InvDuring, Calm, Repair, With, PromptsStand, AllQueued, Distinct, FirstActed;
    RepairCalm(db, e);
    CalmRefl(db);
    var polled := With(db.parked, Polling);
    var mid := if polled == [] then db else Repair(db);
    if !(polled != [] && PromptsStand(mid, polled)) {
      var parked := if polled == [] then mid.parked else PausePrompts(mid.parked, None);
      var q := mid.(parked := parked);
      assert polled == [] ==> q == mid;
      RepairFrame(db);
      PauseKeeps(mid, None, e);
      ParkedQueued(q, e, ParkWaiting);
      CalmTrans(db, mid, q);
      ActsDuring(q, With(parked, ParkWaiting), env, e);
      var a := CheckActs(db, env);
      if a.Some? { CalmTrans(db, q, a.value.db); }
    }
  }
}
