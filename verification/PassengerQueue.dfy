// The queue of parked requests, and the opportunity check that serves it
// whenever something may have become free.
module PassengerQueue {
  import opened Options
  import opened DispatchState
  import opened OrderTable
  import opened DriverLine
  import opened Cascade
  import opened CascadeInv
  import opened Frames

  // The parked requests of one status, in order of position.
  function With(parked: seq<Parked>, s: ParkStatus): seq<OrderId>
  {
    if parked == [] then []
    else if parked[0].status == s then [parked[0].order] + With(parked[1..], s)
    else With(parked[1..], s)
  }

  // Every passenger now being asked still has a driver within reach.
  predicate PromptsStand(db: Db, polled: seq<OrderId>)
  {
    forall i :: 0 <= i < |polled| ==> polled[i] in db.orders && HasEligible(db, polled[i])
  }

  predicate AsksFirst(row: Order, o: OrderId, env: Env)
  {
    !row.request.byDispatcher && !row.notes.confirmed && o in env.ripe
  }

  // A free driver within reach of a parked request. For a village request the
  // probe does not look at who has declined.
  predicate DriverInReach(db: Db, o: OrderId)
    requires o in db.orders
  {
    if RouteCity(db.orders[o]).Some? then HasWaiting(db, StageLine(db.orders[o]), {})
    else HasEligible(db, o)
  }

  predicate TripInReach(db: Db, o: OrderId)
    requires o in db.orders
  {
    var row := db.orders[o];
    row.slot.driver.Some?
    || (!FreeDriverHasPriority(db, o) && RouteCity(row).Some? && !row.fallback
        && ClaimTrip(db.orders, o, db.nextOrder).Some?)
  }

  // A parked request leaves the passenger queue for the free driver in reach.
  function GivenOut(db: Db, o: OrderId, env: Env, depth: nat): (r: Outcome)
    requires o in db.orders
    ensures r.db.orders.Keys == db.orders.Keys
  {
    var row := db.orders[o];
    if !Candidate(row.status) || row.driver.Some? || row.reserved.Some? then Done(db, false)
    else
      var line := if RouteCity(row).Some? then Some(StageLine(row)) else None;
      OfferToNextDriver(Unparked(db, o), o, {}, line, env, depth)
  }

  // Serving one request either ends the check or passes on to the next one.
  datatype Service = Acted(result: Outcome) | Passed(db: Db)

  function ServeOne(db: Db, o: OrderId, env: Env, depth: nat): (r: Service)
    requires o in db.orders
    ensures (if r.Acted? then r.result.db.orders.Keys else r.db.orders.Keys) == db.orders.Keys
  {
    var row := db.orders[o];
    var village := RouteCity(row).Some?;
    if DriverInReach(db, o) then
      if AsksFirst(row, o, env) then Acted(Done(db.(parked := SetPark(db.parked, o, Polling)), false))
      else Acted(GivenOut(db, o, env, depth))
    else if !TripInReach(db, o) then
      if village && !row.fallback then Acted(Fallback(db, o, true, env, depth)) else Passed(db)
    else
      var n := NotifyBusyDrivers(db, o, env);
      if n.created then Passed(n.db) else Acted(Fallback(n.db, o, true, env, depth))
  }

  // Serve the waiting requests in order until one of them has been acted upon;
  // looking for its driver repairs the driver queue first.
  function Serve(db: Db, waiting: seq<OrderId>, env: Env, depth: nat): (r: Outcome)
    ensures r.db.orders.Keys == db.orders.Keys
    decreases |waiting|
  {
    if waiting == [] then Done(db, false)
    else if waiting[0] !in db.orders then Serve(db, waiting[1..], env, depth)
    else
      match ServeOne(Repair(db), waiting[0], env, depth)
      case Acted(r) => r
      case Passed(r) => Serve(r, waiting[1..], env, depth)
  }

  // The opportunity check. Every probe repairs the driver queue first.
  function TryPromote(db: Db, env: Env, depth: nat): (r: Outcome)
    ensures r.db.orders.Keys == db.orders.Keys
  {
    var polled := With(db.parked, Polling);
    var db := if polled == [] then db else Repair(db);
    if polled != [] && PromptsStand(db, polled) then Done(db, false)
    else
      var parked := if polled == [] then db.parked else PausePrompts(db.parked, None);
      Serve(db.(parked := parked), With(parked, ParkWaiting), env, depth)
  }

  // ---------------------------------------------------------------- proofs

  ghost predicate AllQueued(db: Db, w: seq<OrderId>)
  {
    forall o :: o in w ==> o in db.orders && db.orders[o].status == Queued
  }

  ghost predicate Distinct(w: seq<OrderId>)
  {
    forall i, j :: 0 <= i < j < |w| ==> w[i] != w[j]
  }

  lemma {:induction false} WithParks(parked: seq<Parked>, s: ParkStatus)
    requires forall i, j :: 0 <= i < j < |parked| ==> parked[i].order != parked[j].order
    ensures forall o :: o in With(parked, s) ==> Parked(o, s) in parked
    ensures Distinct(With(parked, s))
  {
    if parked != [] {
      WithParks(parked[1..], s);
      forall o | o in With(parked[1..], s) ensures Parked(o, s) in parked[1..] && o != parked[0].order {
        var k :| 0 <= k < |parked| - 1 && parked[1..][k] == Parked(o, s);
        assert parked[k + 1].order != parked[0].order;
      }
    }
  }

  // Serving keeps the invariant and moves unowned orders only.
  lemma {:induction false} ServeKeeps(db: Db, waiting: seq<OrderId>, env: Env, depth: nat, e: Option<DriverId>)
    requires InvDuring(db, e)
    requires AllQueued(db, waiting) && Distinct(waiting)
    ensures var r := Serve(db, waiting, env, depth).db; InvDuring(r, e) && Calm(db, r)
    decreases |waiting|
  {
    hide InvDuring, Moves, Calm, ServeOne, Repair;
    CalmRefl(db);
    if waiting != [] {
      var o, rest := waiting[0], waiting[1..];
      assert o in waiting;
      var mid := Repair(db);
      RepairCalm(db, e);
      RepairFrame(db);
      match ServeOne(mid, o, env, depth)
      case Acted(r) =>
        ServeOneKeeps(mid, o, env, depth, e);
        CalmTrans(db, mid, r.db);
      case Passed(r) =>
        ServeOneKeeps(mid, o, env, depth, e);
        CalmTrans(db, mid, r);
        ServeKeeps(r, rest, env, depth, e);
        CalmTrans(db, r, Serve(r, rest, env, depth).db);
    }
  }

  lemma ServeOneKeeps(db: Db, o: OrderId, env: Env, depth: nat, e: Option<DriverId>)
    requires InvDuring(db, e) && o in db.orders && db.orders[o].status == Queued
    ensures match ServeOne(db, o, env, depth)
            case Acted(r) => InvDuring(r.db, e) && Calm(db, r.db)
            case Passed(r) =>
              InvDuring(r, e) && Calm(db, r) && (forall a :: a in db.orders && a != o ==> r.orders[a] == db.orders[a])
  {
    hide InvDuring, Moves, Calm, Fallback, OfferToNextDriver, NotifyBusyDrivers, Unparked, DriverInReach, TripInReach;
    CalmRefl(db);
    var row := db.orders[o];
    if DriverInReach(db, o) {
      if AsksFirst(row, o, env) {
        SetParkKeeps(db, o, Polling, e);
        KeptCalm(db, db.(parked := SetPark(db.parked, o, Polling)), o, e);
      } else {
        OfferParked(db, o, env, depth, e);
      }
    } else if !TripInReach(db, o) {
      FallbackKeeps(db, o, true, env, depth, e);
      KeptCalm(db, Fallback(db, o, true, env, depth).db, o, e);
    } else {
      var n := NotifyBusyDrivers(db, o, env);
      NotifyKeeps(db, o, env, e);
      KeptCalm(db, n.db, o, e);
      OthersStand(db, n.db, o);
      FallbackKeeps(n.db, o, true, env, depth, e);
      KeptCalm(n.db, Fallback(n.db, o, true, env, depth).db, o, e);
      CalmTrans(db, n.db, Fallback(n.db, o, true, env, depth).db);
    }
  }

  lemma KeptCalm(db: Db, r: Db, o: OrderId, e: Option<DriverId>)
    requires Kept(db, r, o, e) && o in db.orders
    requires Holder(db.orders[o]).None? && !Closed(db.orders[o].status)
    ensures InvDuring(r, e) && Calm(db, r)
  {
    MovesCalm(db, r, o);
  }

  lemma OthersStand(db: Db, r: Db, o: OrderId)
    requires Moves(db, r, o)
    ensures forall a :: a in db.orders && a != o ==> a in r.orders && r.orders[a] == db.orders[a]
  {
  }

  lemma OfferParked(db: Db, o: OrderId, env: Env, depth: nat, e: Option<DriverId>)
    requires InvDuring(db, e) && o in db.orders && db.orders[o].status == Queued
    ensures var row := db.orders[o];
      var line := if RouteCity(row).Some? then Some(StageLine(row)) else None;
      var r := OfferToNextDriver(Unparked(db, o), o, {}, line, env, depth).db;
      InvDuring(r, e) && Calm(db, r)
  {
    hide InvDuring, Moves, Calm, OfferToNextDriver, Unparked;
    var row := db.orders[o];
    var line := if RouteCity(row).Some? then Some(StageLine(row)) else None;
    var u := Unparked(db, o);
    UnparkedKeeps(db, o, e);
    KeptCalm(db, u, o, e);
    OfferKeeps(u, o, {}, line, env, depth, e);
    AdriftOpen(u, o);
    KeptCalm(u, OfferToNextDriver(u, o, {}, line, env, depth).db, o, e);
    CalmTrans(db, u, OfferToNextDriver(u, o, {}, line, env, depth).db);
  }

  lemma AdriftOpen(db: Db, o: OrderId)
    requires Adrift(db, o)
    ensures o in db.orders && Holder(db.orders[o]).None? && !Closed(db.orders[o].status)
  {
  }

  lemma ParkedQueued(db: Db, e: Option<DriverId>, s: ParkStatus)
    requires InvDuring(db, e)
    ensures AllQueued(db, With(db.parked, s)) && Distinct(With(db.parked, s))
  {
    hide OrdersInv, RosterOk, Seated, DistinctPositions;
    WithParks(db.parked, s);
    forall o | o in With(db.parked, s) ensures o in db.orders && db.orders[o].status == Queued {
      assert Parked(o, s) in db.parked;
    }
  }

  lemma PauseKeeps(db: Db, except: Option<OrderId>, e: Option<DriverId>)
    requires InvDuring(db, e)
    ensures var r := db.(parked := PausePrompts(db.parked, except)); InvDuring(r, e) && Calm(db, r)
  {
    hide OrdersInv, RosterOk, DistinctPositions, ParkedOk;
    SameQueueParks(db.parked, PausePrompts(db.parked, except));
    RosterStays(db, db.(parked := PausePrompts(db.parked, except))) by { QueueInRoster(db); }
  }

  lemma RepairCalm(db: Db, e: Option<DriverId>)
    requires InvDuring(db, e)
    ensures InvDuring(Repair(db), e) && Calm(db, Repair(db))
  {
    hide InvDuring, RepairAll, MaxPosition, Repairable;
    RepairKeepsInv(db, e);
    OfferedStand(db, e);
    RosterPart(db, e);
    RepairDoes(db);
  }

  // The opportunity check keeps the invariant and moves unowned orders only.
  lemma TryPromoteKeeps(db: Db, env: Env, depth: nat, e: Option<DriverId>)
    requires InvDuring(db, e)
    ensures var r := TryPromote(db, env, depth).db; InvDuring(r, e) && Calm(db, r)
  {
    hide InvDuring, Calm, Repair, Serve, With, PromptsStand, AllQueued, Distinct;
    CalmRefl(db);
    RepairCalm(db, e);
    RepairFrame(db);
    var polled := With(db.parked, Polling);
    var mid := if polled == [] then db else Repair(db);
    if !(polled != [] && PromptsStand(mid, polled)) {
      var parked := if polled == [] then mid.parked else PausePrompts(mid.parked, None);
      var q := mid.(parked := parked);
      CalmRefl(mid);
      assert polled == [] ==> q == mid;
      PauseKeeps(mid, None, e);
      CalmTrans(db, mid, q);
      ParkedQueued(q, e, ParkWaiting);
      ServeKeeps(q, With(parked, ParkWaiting), env, depth, e);
      CalmTrans(db, q, Serve(q, With(parked, ParkWaiting), env, depth).db);
    }
  }
}
