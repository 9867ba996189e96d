// The driver queue is first in, first out. Whatever transactions run, two drivers
// change places only if one of them leaves or is sent to the tail himself.
module Fifo {
  import opened Options
  import opened DispatchState
  import opened OrderTable
  import opened DriverLine
  import opened Cascade
  import opened CascadeInv
  import opened PassengerQueue
  import opened Trips
  import opened Handoff
  import opened OfferSteps
  import opened ClaimSteps
  import opened RouteSteps
  import opened TripSteps
  import opened PassengerSteps
  import opened Protocol

  // Every driver is on the roster, and only drivers stand in the queue.
  ghost predicate Listed(db: Db)
  {
    (forall d :: d in db.drivers ==> d in db.roster) && (forall d :: d in db.queue ==> d in db.drivers)
  }

  predicate Ahead(queue: Queue, a: DriverId, b: DriverId)
  {
    a in queue && b in queue && queue[a].position < queue[b].position
  }

  ghost predicate Stays(queue: Queue, queue': Queue, d: DriverId)
  {
    d in queue && d in queue' && queue'[d].position == queue[d].position
  }

  ghost predicate BehindAll(queue: Queue, queue': Queue, moved: set<DriverId>, d: DriverId)
    requires d in queue'
  {
    forall x :: x in queue && x !in moved && x != d ==> queue[x].position < queue'[d].position
  }

  // Nobody but the drivers named leaves his place, and whoever comes to a place
  // that is new to him stands behind everybody who kept his; the users themselves
  // are the same.
  ghost predicate PlaceKept(db: Db, db': Db, moved: set<DriverId>, d: DriverId)
  {
    && db'.roster == db.roster && (d in db'.drivers <==> d in db.drivers) && (d in db'.drivers ==> d in db'.roster)
    && (d in db.queue && d !in moved ==> Stays(db.queue, db'.queue, d))
    && (d in db'.queue ==>
          d in db'.drivers && (Stays(db.queue, db'.queue, d) || BehindAll(db.queue, db'.queue, moved, d)))
  }

  ghost predicate Fair(db: Db, db': Db, moved: set<DriverId>)
  {
    forall d :: PlaceKept(db, db', moved, d)
  }

  // ---------------------------------------------------------------- composition

  lemma FairThen(a: Db, b: Db, c: Db, moved: set<DriverId>)
    requires Fair(a, b, moved) && Fair(b, c, moved)
    ensures Fair(a, c, moved)
  {
    forall d ensures PlaceKept(a, c, moved, d) {
      assert PlaceKept(a, b, moved, d) && PlaceKept(b, c, moved, d);
      if d in c.queue && !Stays(a.queue, c.queue, d) {
        forall x | x in a.queue && x !in moved && x != d ensures a.queue[x].position < c.queue[d].position {
          assert PlaceKept(a, b, moved, x);
        }
      }
    }
  }

  lemma FairMore(db: Db, db': Db, few: set<DriverId>, more: set<DriverId>)
    requires Fair(db, db', few) && few <= more
    ensures Fair(db, db', more)
  {
    forall d ensures PlaceKept(db, db', more, d) { assert PlaceKept(db, db', few, d); }
  }

  lemma FairListed(db: Db, db': Db, moved: set<DriverId>)
    requires Fair(db, db', moved)
    ensures Listed(db') && db'.drivers.Keys == db.drivers.Keys
  {
    forall d
      ensures (d in db'.drivers <==> d in db.drivers) && (d in db'.drivers ==> d in db'.roster)
           && (d in db'.queue ==> d in db'.drivers)
    {
      assert PlaceKept(db, db', moved, d);
    }
  }

  // No position is touched at all.
  ghost predicate Still(db: Db, db': Db)
  {
    && db'.roster == db.roster && db'.drivers.Keys == db.drivers.Keys && db'.queue.Keys == db.queue.Keys
    && (forall d :: d in db.queue ==> db'.queue[d].position == db.queue[d].position)
  }

  lemma StillFair(db: Db, db': Db, moved: set<DriverId>)
    requires Listed(db) && Still(db, db')
    ensures Fair(db, db', moved)
  {
    forall d ensures PlaceKept(db, db', moved, d) { }
  }

  lemma ThenStill(a: Db, b: Db, c: Db, moved: set<DriverId>)
    requires Fair(a, b, moved) && Still(b, c)
    ensures Fair(a, c, moved)
  {
    FairListed(a, b, moved);
    StillFair(b, c, moved);
    FairThen(a, b, c, moved);
  }

  // ---------------------------------------------------------------- one driver

  lemma TailIsBehind(db: Db, d: DriverId)
    requires Listed(db) && d in db.queue
    ensures db.queue[d].position <= MaxPosition(db)
  {
    assert d in db.roster;
  }

  // Joining sends one driver to the tail.
  lemma JoinFair(db: Db, d: DriverId, line: Option<Line>)
    requires Listed(db) && d in db.drivers
    ensures Fair(db, Join(db, d, line), {d})
    ensures Fair(db, BroughtIn(db, d, line), {d})
    ensures Fair(db, OnLineNow(Join(db, d, line), d), {d})
  {
    hide MaxPosition;
    var r := Join(db, d, line);
    forall x ensures PlaceKept(db, r, {d}, x) {
      forall y | y in db.queue ensures db.queue[y].position <= MaxPosition(db) { TailIsBehind(db, y); }
    }
    StatusFair(db, r, d);
  }

  // Flags have nothing to do with places.
  lemma StatusFair(db: Db, r: Db, d: DriverId)
    requires Fair(db, r, {d}) && d in r.drivers
    ensures forall onLine, status :: Fair(db, SetDriver(r, d, onLine, status), {d})
  {
    forall onLine, status ensures Fair(db, SetDriver(r, d, onLine, status), {d}) {
      ThenStill(db, r, SetDriver(r, d, onLine, status), {d});
    }
  }

  lemma LeaveFair(db: Db, d: DriverId)
    requires Listed(db) && d in db.drivers
    ensures Fair(db, Leave(db, d), {d}) && Fair(db, OffLine(db, d), {d})
  {
    var r := Leave(db, d);
    forall x ensures PlaceKept(db, r, {d}, x) { }
    StatusFair(db, r, d);
  }

  // Everything else the queue does to one driver leaves him where he stands.
  lemma StandStill(db: Db, d: DriverId)
    requires d in db.drivers
    ensures Still(db, SetAway(db, d)) && Still(db, MarkAssigned(db, d)) && Still(db, ReleaseOffer(db, d))
    ensures Still(db, RestorePosition(db, d)) && Still(db, AdminRestore(db, d)) && Still(db, OnLineNow(db, d))
    ensures d !in db.queue ==> Still(db, ReturnToQueue(db, d))
  {
  }

  // ---------------------------------------------------------------- repair

  lemma {:induction false} RepairAllPlaces(db: Db, unbound: set<DriverId>, queue: Queue, todo: seq<DriverId>, last: nat)
    requires last >= MaxPosition(db)
    requires forall d :: d in db.queue ==> Stays(db.queue, queue, d)
    requires forall d :: d in queue ==>
               d in db.drivers && (Stays(db.queue, queue, d) || queue[d].position > MaxPosition(db))
    ensures var q := RepairAll(db, unbound, queue, todo, last);
      && (forall d :: d in db.queue ==> Stays(db.queue, q, d))
      && (forall d :: d in q ==> d in db.drivers && (Stays(db.queue, q, d) || q[d].position > MaxPosition(db)))
    decreases |todo|
  {
    hide MaxPosition;
    if todo != [] {
      var d := todo[0];
      if d !in unbound || d !in db.drivers {
        RepairAllPlaces(db, unbound, queue, todo[1..], last);
      } else {
        var last' := if d in db.queue then last else last + 1;
        var next := queue[d := RepairedRow(db, d, last')];
        forall x | x in db.queue ensures Stays(db.queue, next, x) { assert Stays(db.queue, queue, x); }
        forall x | x in next && !Stays(db.queue, next, x)
          ensures x in db.drivers && next[x].position > MaxPosition(db)
        {
          if x != d { assert !Stays(db.queue, queue, x); }
        }
        RepairAllPlaces(db, unbound, next, todo[1..], last');
      }
    }
  }

  lemma RepairFair(db: Db)
    requires Listed(db)
    ensures Fair(db, Repair(db), {}) && Repair(db) == db.(queue := Repair(db).queue)
  {
    hide RepairAll, MaxPosition;
    forall d | d in db.queue ensures Stays(db.queue, db.queue, d) { }
    RepairAllPlaces(db, Unbound(db), db.queue, db.roster, MaxPosition(db));
    var r := Repair(db);
    forall d ensures PlaceKept(db, r, {}, d) {
      forall x | x in db.queue ensures db.queue[x].position <= MaxPosition(db) { TailIsBehind(db, x); }
    }
  }

  // The repair gives every unengaged online driver a waiting row and touches
  // nobody engaged in anything.
  lemma RepairIsFair(db: Db)
    requires RosterOk(db) && DistinctPositions(db.queue)
    ensures var q := Repair(db).queue;
      && DistinctPositions(q) && Fair(db, Repair(db), {})
      && (forall d :: Repairable(db, d) ==> d in q && q[d].status == Waiting)
      && (forall d :: Engaged(db, d) ==> (d in q <==> d in db.queue) && (d in q ==> q[d] == db.queue[d]))
  {
    hide RepairAll, MaxPosition, RosterOk, Engaged, Fair;
    RepairDoes(db);
    assert Listed(db);
    RepairFair(db);
  }

  // ---------------------------------------------------------------- dispatch

  lemma {:induction false} OfferFair(db: Db, o: OrderId, skip: set<DriverId>, line: Option<Line>, env: Env, depth: nat)
    requires Listed(db) && o in db.orders
    ensures Fair(db, OfferToNextDriver(db, o, skip, line, env, depth).db, {})
    decreases depth, 0
  {
    hide Repair, PickFrom, Fair, Listed, HandleNoDriver, StageLine;
    StillFair(db, db, {});
    if depth > 0 && Offerable(db.orders[o]) {
      RepairFair(db);
      FairListed(db, Repair(db), {});
      var mid := Repair(db);
      var target := if line.Some? then line.value else StageLine(db.orders[o]);
      var d := Pick(mid, target, db.orders[o].notes.declined + skip);
      if d.Some? && d.value in mid.queue {
        ThenStill(db, mid, PlaceOffer(mid, o, d.value, env), {});
      } else {
        HandleFair(mid, o, env, depth - 1);
        FairThen(db, mid, HandleNoDriver(mid, o, env, depth - 1).db, {});
      }
    }
  }

  lemma {:induction false} HandleFair(db: Db, o: OrderId, env: Env, depth: nat)
    requires Listed(db) && o in db.orders
    ensures Fair(db, HandleNoDriver(db, o, env, depth).db, {})
    decreases depth, 4
  {
    hide Repair, HasWaiting, Fair, Listed, OfferToNextDriver, ParkAndNotify, StageLine;
    RepairFair(db);
    var mid := Repair(db);
    FairListed(db, mid, {});
    if HasEligible(db, o) {
      OfferFair(mid, o, {}, None, env, depth);
      FairThen(db, mid, OfferToNextDriver(mid, o, {}, None, env, depth).db, {});
    } else {
      var free := SetStatus(mid, o, NoDrivers);
      ThenStill(db, mid, free, {});
      ThenStill(db, mid, AskChat(free, o, env), {});
      ThenStill(db, mid, Enqueue(free, o), {});
      FairListed(db, Enqueue(free, o), {});
      ParkFair(Enqueue(free, o), o, env, depth);
      FairThen(db, Enqueue(free, o), ParkAndNotify(Enqueue(free, o), o, env, depth).db, {});
    }
  }

  lemma NotifyFair(db: Db, o: OrderId, env: Env)
    requires Listed(db) && o in db.orders
    ensures Fair(db, NotifyBusyDrivers(db, o, env).db, {})
  {
    hide Repair, HasWaiting, Fair, Listed, ClaimTrip, StageLine;
    StillFair(db, db, {});
    RepairFair(db);
    var mid := AfterPriority(db, o);
    var r := NotifyBusyDrivers(db, o, env).db;
    assert r == db || Still(mid, r);
    if r != db { ThenStill(db, mid, r, {}); }
  }

  lemma {:induction false} ParkFair(db: Db, o: OrderId, env: Env, depth: nat)
    requires Listed(db) && o in db.orders
    ensures Fair(db, ParkAndNotify(db, o, env, depth).db, {})
    decreases depth, 3
  {
    hide Repair, HasWaiting, Fair, Listed, NotifyBusyDrivers, Fallback;
    NotifyFair(db, o, env);
    var n := NotifyBusyDrivers(db, o, env);
    FairListed(db, n.db, {});
    if RouteCity(db.orders[o]).Some? && !n.created {
      FallbackFair(n.db, o, true, env, depth);
      FairThen(db, n.db, Fallback(n.db, o, true, env, depth).db, {});
    }
  }

  lemma {:induction false} FallbackFair(db: Db, o: OrderId, recheck: bool, env: Env, depth: nat)
    requires Listed(db) && o in db.orders
    ensures Fair(db, Fallback(db, o, recheck, env, depth).db, {})
    decreases depth, 2
  {
    hide Repair, HasWaiting, Fair, Listed, OfferToNextDriver, EnterFallback, Unparked, Parking;
    StillFair(db, db, {});
    var row := db.orders[o];
    if Candidate(row.status) && row.driver.None? && row.reserved.None? {
      var p := Parking(db, o);
      ParkingStill(db, o);
      StillFair(db, p, {});
      FairListed(db, p, {});
      RepairFair(p);
      FairThen(db, p, Repair(p), {});
      FairListed(db, Repair(p), {});
      if recheck && RouteCity(row).Some? && !row.fallback {
        var line := VillageLine(RouteCity(row).value);
        if HasWaiting(p, line, {}) {
          HandOutFair(db, Repair(p), o, line, env, depth);
        } else {
          EnterFair(Repair(p), o, env, depth);
          FairThen(db, Repair(p), EnterFallback(Repair(p), o, env, depth).db, {});
        }
      } else {
        EnterFair(p, o, env, depth);
        FairThen(db, p, EnterFallback(p, o, env, depth).db, {});
      }
    }
  }

  lemma ParkingStill(db: Db, o: OrderId)
    requires o in db.orders
    ensures Still(db, Parking(db, o)) && Still(db, Unparked(db, o)) && Still(db, Repark(db, o))
    ensures Still(db, Remove(db, o))
  {
  }

  lemma {:induction false} HandOutFair(db: Db, mid: Db, o: OrderId, line: Line, env: Env, depth: nat)
    requires Fair(db, mid, {}) && o in mid.orders
    ensures Fair(db, OfferToNextDriver(Unparked(mid, o), o, {}, Some(line), env, depth).db, {})
    decreases depth, 1, 0
  {
    hide Fair, Listed, OfferToNextDriver, Unparked;
    ParkingStill(mid, o);
    var out := Unparked(mid, o);
    ThenStill(db, mid, out, {});
    FairListed(db, out, {});
    OfferFair(out, o, {}, Some(line), env, depth);
    FairThen(db, out, OfferToNextDriver(out, o, {}, Some(line), env, depth).db, {});
  }

  lemma {:induction false} EnterFair(db: Db, o: OrderId, env: Env, depth: nat)
    requires Listed(db) && o in db.orders
    ensures Fair(db, EnterFallback(db, o, env, depth).db, {})
    decreases depth, 1, 1
  {
    hide Repair, HasWaiting, Fair, Listed, OfferToNextDriver, Unparked;
    var f := Put(db, o, db.orders[o].(fallback := true));
    StillFair(db, f, {});
    FairListed(db, f, {});
    RepairFair(f);
    FairThen(db, f, Repair(f), {});
    HandOutFair(db, Repair(f), o, Gorno, env, depth);
  }

  // ---------------------------------------------------------------- the opportunity check

  lemma GivenOutFair(db: Db, o: OrderId, env: Env, depth: nat)
    requires Listed(db) && o in db.orders
    ensures Fair(db, GivenOut(db, o, env, depth).db, {})
  {
    hide Fair, Listed, OfferToNextDriver, Unparked, StageLine;
    StillFair(db, db, {});
    ParkingStill(db, o);
    var out := Unparked(db, o);
    StillFair(db, out, {});
    FairListed(db, out, {});
    var line := if RouteCity(db.orders[o]).Some? then Some(StageLine(db.orders[o])) else None;
    OfferFair(out, o, {}, line, env, depth);
    FairThen(db, out, OfferToNextDriver(out, o, {}, line, env, depth).db, {});
  }

  lemma ServeOneFair(db: Db, o: OrderId, env: Env, depth: nat)
    requires Listed(db) && o in db.orders
    ensures var s := ServeOne(db, o, env, depth); Fair(db, if s.Acted? then s.result.db else s.db, {})
  {
    hide *;
    StillFair(db, db, {}) by { StillRefl(db, db.parked); }
    StillRefl(db, SetPark(db.parked, o, Polling));
    StillFair(db, db.(parked := SetPark(db.parked, o, Polling)), {});
    FallbackFair(db, o, true, env, depth);
    NotifyFair(db, o, env);
    var n := NotifyBusyDrivers(db, o, env).db;
    FairListed(db, n, {});
    FallbackFair(n, o, true, env, depth);
    FairThen(db, n, Fallback(n, o, true, env, depth).db, {});
    GivenOutFair(db, o, env, depth);
    ServeOneIs(db, o, env, depth);
  }

  lemma StillRefl(db: Db, parked: seq<Parked>)
    ensures Still(db, db.(parked := parked)) && Still(db, db)
  {
  }

  // The four ways in which serving one request ends.
  lemma ServeOneIs(db: Db, o: OrderId, env: Env, depth: nat)
    requires o in db.orders
    ensures var s := ServeOne(db, o, env, depth); var r := if s.Acted? then s.result.db else s.db;
      var n := NotifyBusyDrivers(db, o, env).db;
      || r == db.(parked := SetPark(db.parked, o, Polling)) || r == GivenOut(db, o, env, depth).db
      || r == Fallback(db, o, true, env, depth).db || r == db
      || r == n || r == Fallback(n, o, true, env, depth).db
  {
    hide GivenOut, Fallback, NotifyBusyDrivers, DriverInReach, TripInReach, SetPark, AsksFirst;
  }

  lemma {:induction false} ServeFair(db: Db, waiting: seq<OrderId>, env: Env, depth: nat)
    requires Listed(db)
    ensures Fair(db, Serve(db, waiting, env, depth).db, {})
    decreases |waiting|
  {
    hide Repair, Fair, Listed, ServeOne;
    StillFair(db, db, {});
    if waiting != [] {
      if waiting[0] !in db.orders {
        ServeFair(db, waiting[1..], env, depth);
      } else {
        var mid := Repair(db);
        RepairFair(db);
        FairListed(db, mid, {});
        ServeOneFair(mid, waiting[0], env, depth);
        var s := ServeOne(mid, waiting[0], env, depth);
        var next := if s.Acted? then s.result.db else s.db;
        FairThen(db, mid, next, {});
        FairListed(db, next, {});
        if s.Passed? {
          ServeFair(next, waiting[1..], env, depth);
          FairThen(db, next, Serve(next, waiting[1..], env, depth).db, {});
        }
      }
    }
  }

  lemma PromoteFair(db: Db, env: Env, depth: nat, moved: set<DriverId>)
    requires Listed(db)
    ensures Fair(db, TryPromote(db, env, depth).db, moved)
  {
    hide Repair, Fair, Listed, Serve, PromptsStand;
    var polled := With(db.parked, Polling);
    var mid := if polled == [] then db else Repair(db);
    StillFair(db, db, {});
    RepairFair(db);
    var parked := if polled == [] then db.parked else PausePrompts(db.parked, None);
    var quiet := mid.(parked := parked);
    ThenStill(db, mid, quiet, {});
    FairListed(db, quiet, {});
    ServeFair(quiet, With(parked, ParkWaiting), env, depth);
    FairThen(db, quiet, Serve(quiet, With(parked, ParkWaiting), env, depth).db, {});
    assert TryPromote(db, env, depth).db == mid
        || TryPromote(db, env, depth).db == Serve(quiet, With(parked, ParkWaiting), env, depth).db;
    FairMore(db, TryPromote(db, env, depth).db, {}, moved);
  }

  lemma ThenPromoteFair(db: Db, r: Outcome, env: Env, depth: nat, moved: set<DriverId>)
    requires Fair(db, r.db, moved)
    ensures Fair(db, ThenPromote(r, env, depth).db, moved)
  {
    hide Fair, Listed, TryPromote;
    FairListed(db, r.db, moved);
    PromoteFair(r.db, env, depth, moved);
    FairThen(db, r.db, TryPromote(r.db, env, depth).db, moved);
  }
}
