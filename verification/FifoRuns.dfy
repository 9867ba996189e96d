// First in, first out over whole runs: what every transaction does to the places
// of the drivers, and that nobody is ever overtaken.
module FifoRuns {
  import opened Options
  import opened DispatchState
  import opened OrderTable
  import opened DriverLine
  import opened Cascade
  import opened CascadeInv
  import opened PassengerQueue
  import opened Trips
  import opened Handoff
  import opened OfferSteps
  import opened ClaimSteps
  import opened RouteSteps
  import opened TripSteps
  import opened PassengerSteps
  import opened Protocol
  import opened Fifo
  import Custody
  import CustodyRuns

  // ---------------------------------------------------------------- pieces of transactions

  // A state reached fairly, followed by an offer or by the opportunity check.
  lemma ThenOffer(db: Db, mid: Db, o: OrderId, skip: set<DriverId>, env: Env, depth: nat, moved: set<DriverId>)
    requires Fair(db, mid, moved) && o in mid.orders
    ensures Fair(db, OfferToNextDriver(mid, o, skip, None, env, depth).db, moved)
    ensures Fair(db, ThenPromote(OfferToNextDriver(mid, o, skip, None, env, depth), env, depth).db, moved)
  {
    hide Fair, Listed, OfferToNextDriver, ThenPromote;
    FairListed(db, mid, moved);
    OfferFair(mid, o, skip, None, env, depth);
    var r := OfferToNextDriver(mid, o, skip, None, env, depth);
    FairMore(mid, r.db, {}, moved);
    FairThen(db, mid, r.db, moved);
    ThenPromoteFair(db, r, env, depth, moved);
  }

  lemma ThenCheck(db: Db, mid: Db, env: Env, depth: nat, moved: set<DriverId>)
    requires Fair(db, mid, moved)
    ensures Fair(db, TryPromote(mid, env, depth).db, moved)
  {
    hide Fair, Listed, TryPromote;
    FairListed(db, mid, moved);
    PromoteFair(mid, env, depth, moved);
    FairThen(db, mid, TryPromote(mid, env, depth).db, moved);
  }

  lemma ThenFallback(db: Db, mid: Db, o: OrderId, env: Env, depth: nat, moved: set<DriverId>)
    requires Fair(db, mid, moved) && o in mid.orders
    ensures Fair(db, Fallback(mid, o, false, env, depth).db, moved)
  {
    hide Fair, Listed, Fallback;
    FairListed(db, mid, moved);
    FallbackFair(mid, o, false, env, depth);
    FairMore(mid, Fallback(mid, o, false, env, depth).db, {}, moved);
    FairThen(db, mid, Fallback(mid, o, false, env, depth).db, moved);
  }

  // One row rewritten on the way.
  lemma PutStill(db: Db, o: OrderId, row: Order, parked: seq<Parked>)
    ensures Still(db, Put(db, o, row)) && Still(db, Put(db, o, row).(parked := parked))
  {
  }

  lemma {:induction false} ReleaseEachFair(db: Db, rows: seq<OrderId>, env: Env, depth: nat)
    requires Listed(db)
    ensures Fair(db, ReleaseEach(db, rows, env, depth).db, {})
    decreases |rows|
  {
    hide Fair, Listed, Fallback;
    StillFair(db, db, {});
    if rows != [] {
      if rows[0] !in db.orders {
        ReleaseEachFair(db, rows[1..], env, depth);
      } else {
        var o := rows[0];
        var cleared := Put(db, o, ClearRoute(db.orders[o]));
        StillFair(db, cleared, {});
        ThenFallback(db, cleared, o, env, depth, {});
        var next := if Candidate(db.orders[o].status) then Fallback(cleared, o, false, env, depth).db else cleared;
        FairListed(db, next, {});
        ReleaseEachFair(next, rows[1..], env, depth);
        FairThen(db, next, ReleaseEach(next, rows[1..], env, depth).db, {});
      }
    }
  }

  lemma EndRideFair(db: Db, o: OrderId, row: Order, env: Env, depth: nat)
    requires Listed(db) && o in db.orders
    ensures Fair(db, EndRide(db, o, row, env, depth).db, {})
    ensures Fair(db, ReleaseThenClose(db, o, row, env, depth).db, {})
    ensures Fair(db, ReleaseRouteOffers(db, o, env, depth).db, {})
  {
    hide Fair, Listed, ReleaseEach, Routed, Remove;
    var put := Put(db, o, row);
    PutStill(db, o, row, db.parked);
    StillFair(db, put, {});
    FairListed(db, put, {});
    ReleaseEachFair(put, Routed(put.orders, o, put.nextOrder), env, depth);
    FairThen(db, put, EndRide(db, o, row, env, depth).db, {});
    ReleaseEachFair(db, Routed(db.orders, o, db.nextOrder), env, depth);
    var r := ReleaseRouteOffers(db, o, env, depth).db;
    CloseStill(r, o, row);
    ThenStill(db, r, Remove(Put(r, o, row), o), {});
  }

  lemma CloseStill(r: Db, o: OrderId, row: Order)
    requires o in r.orders
    ensures Still(r, Remove(Put(r, o, row), o))
  {
  }

  lemma HandOnFair(db: Db, mid: Db, idle: Db, d: DriverId, env: Env, moved: set<DriverId>)
    requires Fair(db, mid, moved) && Fair(db, idle, moved)
    ensures Fair(db, HandOn(mid, idle, d, env), moved)
  {
    hide Fair, Listed;
    ThenStill(db, mid, Promote(mid, d, env), moved) by { hide ReservationOf; }
  }

  lemma GiveBackFair(db: Db, mid: Db, o: OrderId, env: Env, depth: nat)
    requires Fair(db, mid, {}) && o in mid.orders
    ensures Fair(db, ReleaseReservation(mid, o, env, depth).db, {})
  {
    hide Fair, Listed, TryPromote, Repark;
    ParkingStill(mid, o);
    ThenStill(db, mid, Repark(mid, o), {});
    ThenCheck(db, Repark(mid, o), env, depth, {});
  }

  // ---------------------------------------------------------------- transactions

  // Accepting without a car takes the driver off the line.
  predicate CarMissing(db: Db, o: OrderId, d: DriverId)
  {
    && o in db.orders && d in db.drivers && db.orders[o].status in {Searching, Created}
    && db.orders[o].offered == Some(d) && !db.drivers[d].suspended && !db.drivers[d].carReady
  }

  // The driver joined the line for his present ride only.
  predicate Temporary(db: Db, d: DriverId)
  {
    RideOf(db, d).Some? && db.orders[RideOf(db, d).value].notes.claimedOffline
  }

  // Whose place an answer about a ride costs.
  predicate RefusalMoves(db: Db, o: OrderId, fromChat: bool)
  {
    && o in db.orders && db.orders[o].status == Assigned && db.orders[o].driver.Some?
    && (db.orders[o].notes.claimedOffline || !fromChat)
  }

  predicate Comes(db: Db, ev: Event)
    requires ev.GoesOnline? || ev.PicksLine? || ev.StaysOnLine?
  {
    && MenuOpen(db, ev.driver) && db.drivers[ev.driver].carReady
    && match ev
       case GoesOnline(d) => db.drivers[d].currentLine.Some?
       case PicksLine(_, line) => line in db.lines
       case StaysOnLine(d) => KnownLine(db, d).Some?
  }

  function If(b: bool, d: DriverId): set<DriverId> { if b then {d} else {} }

  // The drivers whom an event takes off the line or sends to its tail.
  function Moved(db: Db, ev: Event): set<DriverId>
  {
    match ev
    case Accepts(o, d) => If(CarMissing(db, o, d), d)
    case OfferExpires(o, d) => If(LiveOffer(db.orders, o, d), d)
    case OfferUndeliverable(o, d) => If(CardRecognized(db, o, d), d)
    case ClaimsPending(o, d) => If(PendingOpen(db, o, d) && OffTheLine(db, d), d)
    case ClaimsFromChat(o, d) =>
      If(ChatOpen(db, o, d) && (!db.drivers[d].onLine || db.drivers[d].status == Away), d)
    case Completes(d) => If(Temporary(db, d), d)
    case DriverCancels(d, _) => If(Temporary(db, d), d)
    case RefusesRide(o, fromChat) => if RefusalMoves(db, o, fromChat) then {db.orders[o].driver.value} else {}
    case GoesOnline(d) => If(Comes(db, ev), d)
    case PicksLine(d, _) => If(Comes(db, ev), d)
    case StaysOnLine(d) => If(Comes(db, ev), d)
    case LeavesLine(d) => If(MenuOpen(db, d), d)
    case StepsOut(d, away) => If(MenuOpen(db, d) && !away, d)
    case AwayExpires(d) => If(d in db.drivers && db.drivers[d].status == Away, d)
    case _ => {}
  }

  lemma AcceptFair(db: Db, o: OrderId, d: DriverId, env: Env, depth: nat)
    requires Listed(db)
    ensures Fair(db, Accept(db, o, d, env, depth).db, Moved(db, Accepts(o, d)))
  {
    hide Fair, Listed, OfferToNextDriver, TryPromote, OffLine, MarkAssigned, Still, Claimed;
    var moved := Moved(db, Accepts(o, d));
    StillRefl(db, db.parked);
    StillFair(db, db, moved);
    if o in db.orders && d in db.drivers {
      var row := db.orders[o];
      LeaveFair(db, d);
      StandStill(db, d);
      StillFair(db, MarkAssigned(db, d), moved);
      PutStill(MarkAssigned(db, d), o, Claimed(Withdrawn(row, env), o, d, env), db.parked);
      ThenStill(db, MarkAssigned(db, d), Put(MarkAssigned(db, d), o, Claimed(Withdrawn(row, env), o, d, env)), moved);
      if CarMissing(db, o, d) {
        var refused := WithRefusal(Withdrawn(row, env), d, false);
        var off := OffLine(db, d);
        var dead, free := Put(off, o, refused.(status := Cancelled)), Put(off, o, refused.(status := Searching));
        PutStill(off, o, refused.(status := Cancelled), off.parked);
        PutStill(off, o, refused.(status := Searching), off.parked);
        ThenStill(db, off, dead, moved);
        ThenStill(db, off, free, moved);
        ThenCheck(db, dead, env, depth, moved);
        ThenOffer(db, free, o, {}, env, depth, moved);
      }
    }
  }

  lemma DeclineFair(db: Db, o: OrderId, d: DriverId, reason: Reason, env: Env, depth: nat)
    requires Listed(db)
    ensures Fair(db, Decline(db, o, d, reason, env, depth).db, {})
  {
    hide Fair, Listed, OfferToNextDriver, TryPromote, ThenPromote, AfterRefusal;
    StillFair(db, db, {});
    if LiveOffer(db.orders, o, d) && d in db.drivers {
      var mid := AfterRefusal(db, d, reason);
      var free := Put(mid, o, Refused(db.orders[o], d, reason, env));
      RefusalStill(db, d, reason);
      PutStill(mid, o, Refused(db.orders[o], d, reason, env), mid.parked);
      StillFair(db, mid, {});
      ThenStill(db, mid, free, {});
      ThenCheck(db, free, env, depth, {});
      ThenOffer(db, free, o, {}, env, depth, {});
    }
  }

  lemma RefusalStill(db: Db, d: DriverId, reason: Reason)
    requires d in db.drivers
    ensures Still(db, AfterRefusal(db, d, reason))
  {
  }

  lemma SilenceFair(db: Db, o: OrderId, d: DriverId, env: Env, depth: nat)
    requires Listed(db)
    ensures Fair(db, AcceptTimeout(db, o, d, env, depth).db, If(LiveOffer(db.orders, o, d), d))
    ensures Fair(db, Unreachable(db, o, d, env, depth).db, If(CardRecognized(db, o, d), d))
  {
    hide Fair, Listed, OfferToNextDriver, TryPromote, ThenPromote, OffLine;
    StillFair(db, db, If(LiveOffer(db.orders, o, d), d));
    StillFair(db, db, If(CardRecognized(db, o, d), d));
    if LiveOffer(db.orders, o, d) && d in db.drivers {
      LeaveFair(db, d);
      var off := OffLine(db, d);
      var row := Withdrawn(db.orders[o], env);
      var dead, free, gone := Put(off, o, row.(status := Cancelled)), Put(off, o, row),
          Put(off, o, db.orders[o].(offered := None));
      ThenStill(db, off, dead, {d});
      ThenStill(db, off, free, {d});
      ThenStill(db, off, gone, {d});
      ThenCheck(db, dead, env, depth, {d});
      ThenOffer(db, free, o, {d}, env, depth, {d});
      ThenOffer(db, gone, o, {}, env, depth, {d});
    }
  }

  lemma TakeOverStill(db: Db, o: OrderId, d: DriverId, offline: bool, env: Env)
    requires o in db.orders && d in db.drivers
    ensures Still(db, TakeOver(db, o, d, offline, env))
  {
  }

  lemma TakePendingFair(db: Db, o: OrderId, d: DriverId, env: Env)
    requires Listed(db)
    ensures Fair(db, TakePending(db, o, d, env).db, Moved(db, ClaimsPending(o, d)))
  {
    hide Fair, Listed, TakeOver, BroughtIn, RideOf, OfferOf, Still;
    var moved := Moved(db, ClaimsPending(o, d));
    StillRefl(db, db.parked);
    StillFair(db, db, moved);
    if PendingOpen(db, o, d) {
      var line := db.drivers[d].currentLine;
      JoinFair(db, d, line);
      BroughtKeeps(db, d, line);
      TakeOverStill(db, o, d, false, env);
      TakeOverStill(BroughtIn(db, d, line), o, d, false, env);
      StillFair(db, TakeOver(db, o, d, false, env), moved);
      if OffTheLine(db, d) {
        ThenStill(db, BroughtIn(db, d, line), TakeOver(BroughtIn(db, d, line), o, d, false, env), moved);
      }
    }
  }

  lemma BroughtKeeps(db: Db, d: DriverId, line: Option<Line>)
    requires d in db.drivers
    ensures BroughtIn(db, d, line).orders == db.orders && d in BroughtIn(db, d, line).drivers
  {
  }

  lemma ReadiedFair(db: Db, d: DriverId)
    requires Listed(db) && d in db.drivers
    ensures Fair(db, Readied(db, d), If(!db.drivers[d].onLine || db.drivers[d].status == Away, d))
  {
    hide Fair, Listed, BroughtIn, Still;
    StillRefl(db, db.parked);
    StillFair(db, db, {});
    var line := db.drivers[d].currentLine;
    JoinFair(db, d, if line.Some? && line.value in db.lines then line else None);
  }

  lemma TakeFromChatFair(db: Db, o: OrderId, d: DriverId, env: Env, depth: nat)
    requires Listed(db)
    ensures Fair(db, TakeFromChat(db, o, d, env, depth).db, Moved(db, ClaimsFromChat(o, d)))
  {
    hide Fair, Listed, TakeOver, Readied, RideOf, OfferBelow, OfferToNextDriver, Still, ReleaseOffer;
    var moved := Moved(db, ClaimsFromChat(o, d));
    StillRefl(db, db.parked);
    StillFair(db, db, moved);
    if ChatOpen(db, o, d) {
      var offer := OfferOf(db, d);
      var other := if offer == Some(o) then None else offer;
      var freed := if other.Some?
                   then Put(ReleaseOffer(db, d), other.value, db.orders[other.value].(offered := None)) else db;
      FreedFair(db, d, other, freed, moved);
      FairListed(db, freed, moved);
      ReadiedFair(freed, d);
      var ready := Readied(freed, d);
      FairThen(db, freed, ready, moved);
      var taken := TakeOver(ready, o, d, !freed.drivers[d].onLine, env);
      TakeOverStill(ready, o, d, !freed.drivers[d].onLine, env);
      ThenStill(db, ready, taken, moved);
      if other.Some? {
        TakenKeys(ready, o, d, !freed.drivers[d].onLine, env);
        ThenOffer(db, taken, other.value, {}, env, depth, moved);
      }
    }
  }

  // Withdrawing his other offer neither moves the driver nor brings him in.
  lemma FreedFair(db: Db, d: DriverId, other: Option<OrderId>, freed: Db, moved: set<DriverId>)
    requires Listed(db) && d in db.drivers && (other.Some? ==> other.value in db.orders)
    requires freed == if other.None? then db
                      else Put(ReleaseOffer(db, d), other.value, db.orders[other.value].(offered := None))
    ensures Fair(db, freed, moved) && d in freed.drivers && freed.orders.Keys == db.orders.Keys
    ensures freed.drivers[d].onLine == db.drivers[d].onLine
    ensures freed.drivers[d].status == Away <==> db.drivers[d].status == Away
  {
    hide Fair, Listed;
    StillFair(db, freed, moved);
  }

  lemma TakenKeys(db: Db, o: OrderId, d: DriverId, offline: bool, env: Env)
    requires o in db.orders && d in db.drivers
    ensures TakeOver(db, o, d, offline, env).orders.Keys == db.orders.Keys
  {
  }

  lemma ReserveFair(db: Db, o: OrderId, d: DriverId, card: bool, env: Env)
    requires Listed(db)
    ensures Fair(db, Reserve(db, o, d, card, env).db, {})
  {
    hide Fair, Listed, RideOf, ReservationOf, Repair, FreeDriverHasPriority;
    StillFair(db, db, {});
    if MayReserve(db, o, d, card) {
      RepairFair(db);
      var probed := AfterPriority(db, o);
      ThenStill(db, probed, TakeAside(probed, o, d, env), {});
    }
  }

  lemma DeclineReservedFair(db: Db, o: OrderId, d: DriverId, env: Env, depth: nat)
    requires Listed(db)
    ensures Fair(db, DeclineReserved(db, o, d, env, depth).db, {})
    ensures Fair(db, EtaTimeout(db, o, env, depth).db, {})
  {
    hide Fair, Listed, RideOf, Fallback, ReleaseReservation;
    StillFair(db, db, {});
    if o in db.orders {
      var closed := Put(db, o, CardClosed(db.orders[o], env));
      var free := Put(closed, o, Unreserved(closed.orders[o]));
      StillFair(db, closed, {});
      ThenStill(db, closed, free, {});
      GiveBackFair(db, closed, o, env, depth);
      ThenFallback(db, free, o, env, depth, {});
    }
  }

  lemma CardFair(db: Db, o: OrderId, d: DriverId, env: Env, depth: nat)
    requires Listed(db)
    ensures Fair(db, DeclineRoute(db, o, d, env, depth).db, {})
    ensures Fair(db, RouteTimeout(db, o, env, depth).db, {})
  {
    hide Fair, Listed, Fallback, ThenPromote, Excluded;
    StillFair(db, db, {});
    if o in db.orders {
      var row := db.orders[o];
      var no := Put(db, o, Excluded(row, d));
      StillFair(db, no, {});
      ThenFallback(db, no, o, env, depth, {});
      PutStill(db, o, ClearRoute(row), db.parked);
      StillFair(db, Put(db, o, ClearRoute(row)), {});
      if row.slot.driver.Some? && row.slot.trip.Some? {
        var quiet := Suppressed(db, row.slot.trip.value, row.slot.driver.value);
        var late := Put(quiet, o, Excluded(quiet.orders[o], row.slot.driver.value));
        StillFair(db, late, {});
        ThenFallback(db, late, o, env, depth, {});
        ThenPromoteFair(db, Fallback(late, o, false, env, depth), env, depth, {});
      }
    }
  }

  lemma RideFair(db: Db, ev: Event, env: Env)
    requires Listed(db) && IsRiding(ev)
    ensures Fair(db, OnTheRide(db, ev, env), {})
  {
    hide Fair, Listed, RideOf, NotifyBusyDrivers, LatestAvailable;
    match ev
    case NamesTime(o, d) => StillFair(db, ChooseEta(db, o, d, env), {});
    case Departs(d) => StillFair(db, Depart(db, d, env), {});
    case Boards(d) => StillFair(db, Seat(db, d), {});
    case Arrives(d) =>
      StillFair(db, db, {});
      if RideOf(db, d).Some? {
        var o := RideOf(db, d).value;
        var there := Put(db, o, db.orders[o].(status := Arrived));
        StillFair(db, there, {});
        FairListed(db, there, {});
        var a := LatestAvailable(there, there.nextOrder);
        if a.Some? {
          NotifyFair(there, a.value, env);
          FairThen(db, there, NotifyBusyDrivers(there, a.value, env).db, {});
        }
      }
  }

  // ---------------------------------------------------------------- ends

  lemma LeftFair(db: Db, r: Db, d: DriverId, row: Order, env: Env, moved: set<DriverId>)
    requires Fair(db, r, moved) && d in r.drivers && (row.notes.claimedOffline ==> d in moved)
    ensures var left := LeftIfTemporary(r, d, row);
      Fair(db, left, moved) && Fair(db, HandOn(left, SetAway(left, d), d, env), moved)
  {
    hide Fair, Listed, OffLine, HandOn, SetAway;
    FairListed(db, r, moved);
    if row.notes.claimedOffline {
      LeaveFair(r, d);
      FairMore(r, OffLine(r, d), {d}, moved);
      FairThen(db, r, OffLine(r, d), moved);
    }
    var left := LeftIfTemporary(r, d, row);
    StandStill(left, d);
    ThenStill(db, left, SetAway(left, d), moved);
    HandOnFair(db, left, SetAway(left, d), d, env, moved);
  }

  lemma CompleteFair(db: Db, d: DriverId, env: Env, depth: nat)
    requires Listed(db)
    ensures Fair(db, Complete(db, d, env, depth).db, Moved(db, Completes(d)))
  {
    hide Fair, Listed, RideOf, EndRide, LeftIfTemporary, HandOn, SetAway, Still;
    var moved := Moved(db, Completes(d));
    StillRefl(db, db.parked);
    StillFair(db, db, moved);
    if RideOf(db, d).Some? && d in db.drivers {
      var o := RideOf(db, d).value;
      var row := db.orders[o].(status := Completed);
      EndRideFair(db, o, row, env, depth);
      var r := EndRide(db, o, row, env, depth).db;
      FairMore(db, r, {}, moved);
      FairListed(db, r, moved);
      LeftFair(db, r, d, row, env, moved);
    }
  }

  lemma PassengerCancelFair(db: Db, o: OrderId, env: Env, depth: nat)
    requires Listed(db)
    ensures Fair(db, PassengerCancel(db, o, env, depth).db, {})
  {
    hide Fair, Listed, EndRide, Remove, HandOn, TryPromote, RestorePosition, WithdrawOffer, Still;
    StillRefl(db, db.parked);
    StillFair(db, db, {});
    if o in db.orders && PassengerMayCancel(db.orders[o]) {
      var row := db.orders[o].(status := Cancelled);
      EndRideFair(db, o, row, env, depth);
      var r := EndRide(db, o, row, env, depth).db;
      ParkingStill(r, o);
      ThenStill(db, r, Remove(r, o), {});
      CancelledFair(db, Remove(r, o), o, env, depth);
    }
  }

  // What a cancelling passenger leaves behind.
  lemma CancelledFair(db: Db, c: Db, o: OrderId, env: Env, depth: nat)
    requires Fair(db, c, {}) && o in c.orders
    ensures Fair(db, TryPromote(WithdrawOffer(c, o), env, depth).db, {})
    ensures Fair(db, TryPromote(Put(c, o, c.orders[o].(reserved := None, driver := None)), env, depth).db, {})
    ensures Fair(db, TryPromote(c, env, depth).db, {})
    ensures c.orders[o].driver.Some? && c.orders[o].driver.value in c.drivers ==>
              var d := c.orders[o].driver.value;
              Fair(db, TryPromote(HandOn(c, RestorePosition(c, d), d, env), env, depth).db, {})
  {
    hide Fair, Listed, HandOn, TryPromote, RestorePosition, WithdrawOffer, Still;
    var was := c.orders[o];
    WithdrawStill(c, o);
    ThenStill(db, c, WithdrawOffer(c, o), {});
    var alone := Put(c, o, was.(reserved := None, driver := None));
    PutStill(c, o, was.(reserved := None, driver := None), c.parked);
    ThenStill(db, c, alone, {});
    ThenCheck(db, WithdrawOffer(c, o), env, depth, {});
    ThenCheck(db, alone, env, depth, {});
    ThenCheck(db, c, env, depth, {});
    if was.driver.Some? && was.driver.value in c.drivers {
      StandStill(c, was.driver.value);
      var idle := RestorePosition(c, was.driver.value);
      ThenStill(db, c, idle, {});
      HandOnFair(db, c, idle, was.driver.value, env, {});
      ThenCheck(db, HandOn(c, idle, was.driver.value, env), env, depth, {});
    }
  }

  lemma WithdrawStill(db: Db, o: OrderId)
    requires o in db.orders
    ensures Still(db, WithdrawOffer(db, o))
  {
  }

  lemma DispatcherCancelFair(db: Db, o: OrderId, env: Env, depth: nat)
    requires Listed(db)
    ensures Fair(db, DispatcherCancel(db, o, env, depth).db, {})
  {
    hide Fair, Listed, ReleaseThenClose, HandOn, RestorePosition, WithdrawOffer;
    StillFair(db, db, {});
    if o in db.orders {
      var row := db.orders[o].(status := Cancelled);
      EndRideFair(db, o, row, env, depth);
      var c := ReleaseThenClose(db, o, row, env, depth).db;
      WithdrawStill(c, o);
      ThenStill(db, c, WithdrawOffer(c, o), {});
      var was := c.orders[o];
      if was.driver.Some? && was.driver.value in c.drivers {
        StandStill(c, was.driver.value);
        ThenStill(db, c, RestorePosition(c, was.driver.value), {});
        HandOnFair(db, c, RestorePosition(c, was.driver.value), was.driver.value, env, {});
      }
    }
  }

  lemma AdminCancelFair(db: Db, o: OrderId, env: Env, depth: nat)
    requires Listed(db)
    ensures Fair(db, AdminCancel(db, o, env, depth).db, {})
  {
    hide Fair, Listed, ReleaseThenClose, HandOn, AdminRestore, Still, Riding;
    StillRefl(db, db.parked);
    StillFair(db, db, {});
    if o in db.orders {
      var was := db.orders[o];
      var row := was.(status := Cancelled, offered := None, reserved := None);
      EndRideFair(db, o, row, env, depth);
      var c := ReleaseThenClose(db, o, row, env, depth).db;
      if was.offered.Some? && was.offered.value in c.drivers { AdminGivesFair(db, c, was.offered.value, env); }
      if was.driver.Some? && was.driver.value in c.drivers { AdminGivesFair(db, c, was.driver.value, env); }
    }
  }

  lemma AdminGivesFair(db: Db, c: Db, d: DriverId, env: Env)
    requires Fair(db, c, {}) && d in c.drivers
    ensures Fair(db, AdminRestore(c, d), {}) && Fair(db, HandOn(c, AdminRestore(c, d), d, env), {})
  {
    hide Fair, Listed, HandOn, AdminRestore, Still;
    StandStill(c, d);
    ThenStill(db, c, AdminRestore(c, d), {});
    HandOnFair(db, c, AdminRestore(c, d), d, env, {});
  }

  lemma ThenAwayFair(db: Db, r: Outcome, d: DriverId, moved: set<DriverId>)
    requires Fair(db, r.db, moved)
    ensures Fair(db, ThenAway(r, d).db, moved)
  {
    hide Fair, Listed, SetAway;
    if d in r.db.drivers {
      StandStill(r.db, d);
      ThenStill(db, r.db, SetAway(r.db, d), moved);
    }
  }

  lemma StepAsideFair(db: Db, mid: Db, d: DriverId, row: Order, moved: set<DriverId>)
    requires Fair(db, mid, moved) && d in mid.drivers && (row.notes.claimedOffline ==> d in moved)
    ensures Fair(db, StepAside(mid, d, row), moved) && Fair(db, LeftIfTemporary(mid, d, row), moved)
  {
    hide Fair, Listed, SetAway, HandOn, LeftIfTemporary;
    StandStill(mid, d);
    var away := SetAway(mid, d);
    ThenStill(db, mid, away, moved);
    LeftAlone(db, mid, d, row, moved);
    LeftAlone(db, away, d, row, moved);
  }

  lemma LeftAlone(db: Db, mid: Db, d: DriverId, row: Order, moved: set<DriverId>)
    requires Fair(db, mid, moved) && d in mid.drivers && (row.notes.claimedOffline ==> d in moved)
    ensures Fair(db, LeftIfTemporary(mid, d, row), moved)
  {
    hide Fair, Listed, OffLine;
    FairListed(db, mid, moved);
    if row.notes.claimedOffline {
      LeaveFair(mid, d);
      FairMore(mid, OffLine(mid, d), {d}, moved);
      FairThen(db, mid, OffLine(mid, d), moved);
    }
  }

  lemma CarFailureFair(db: Db, mid: Db, o: OrderId, d: DriverId, env: Env, depth: nat, moved: set<DriverId>)
    requires Fair(db, mid, moved) && Listed(db) && o in mid.orders && d in mid.drivers
    requires var r := GiveBack(mid, d, env, depth).db; o in r.orders && r.orders[o].notes.claimedOffline ==> d in moved
    ensures Fair(db, CarFailure(mid, o, d, env, depth).db, moved)
  {
    hide Fair, Listed, GiveBack, SetAway, OffLine, OfferToNextDriver, ThenPromote, ThenAway, Still;
    StillRefl(db, db.parked);
    StillFair(db, db, moved);
    var r := GiveBack(mid, d, env, depth).db;
    BackFair(db, mid, d, env, depth, moved);
    if o in r.orders && d in r.drivers {
      if r.orders[o].notes.claimedOffline { ClosedAway(db, r, o, d, r.orders[o].(status := Cancelled), moved); }
      PassedOn(db, r, o, d, r.orders[o].(driver := None, status := Searching), env, depth, moved);
    }
  }

  lemma ClosedAway(db: Db, r: Db, o: OrderId, d: DriverId, row: Order, moved: set<DriverId>)
    requires Fair(db, r, moved) && d in r.drivers && d in moved
    ensures Fair(db, SetAway(OffLine(Put(r, o, row), d), d), moved)
  {
    hide Fair, Listed, SetAway, OffLine, Still;
    var closed := Put(r, o, row);
    PutStill(r, o, row, r.parked);
    ThenStill(db, r, closed, moved);
    FairListed(db, closed, moved);
    LeaveFair(closed, d);
    FairMore(closed, OffLine(closed, d), {d}, moved);
    FairThen(db, closed, OffLine(closed, d), moved);
    StandStill(OffLine(closed, d), d);
    ThenStill(db, OffLine(closed, d), SetAway(OffLine(closed, d), d), moved);
  }

  lemma PassedOn(db: Db, r: Db, o: OrderId, d: DriverId, row: Order, env: Env, depth: nat, moved: set<DriverId>)
    requires Fair(db, r, moved) && o in r.orders && d in r.drivers
    ensures var again := Put(SetAway(r, d), o, row);
      Fair(db, ThenAway(ThenPromote(OfferToNextDriver(again, o, {}, None, env, depth), env, depth), d).db, moved)
  {
    hide Fair, Listed, SetAway, OfferToNextDriver, ThenPromote, ThenAway, Still;
    StandStill(r, d);
    var again := Put(SetAway(r, d), o, row);
    ThenStill(db, r, SetAway(r, d), moved);
    PutStill(SetAway(r, d), o, row, r.parked);
    ThenStill(db, SetAway(r, d), again, moved);
    ThenOffer(db, again, o, {}, env, depth, moved);
    ThenAwayFair(db, ThenPromote(OfferToNextDriver(again, o, {}, None, env, depth), env, depth), d, moved);
  }

  lemma BackFair(db: Db, mid: Db, d: DriverId, env: Env, depth: nat, moved: set<DriverId>)
    requires Fair(db, mid, moved)
    ensures Fair(db, GiveBack(mid, d, env, depth).db, moved)
  {
    hide Fair, Listed, ReservationOf, ReleaseReservation;
    if ReservationOf(mid, d).Some? {
      FairListed(db, mid, moved);
      StillFair(mid, mid, {});
      var r := ReleaseReservation(mid, ReservationOf(mid, d).value, env, depth).db;
      GiveBackFair(mid, mid, ReservationOf(mid, d).value, env, depth);
      FairMore(mid, r, {}, moved);
      FairThen(db, mid, r, moved);
    }
  }

  // How the driver came to his ride is not forgotten while the ride is broken off.
  lemma OriginStays(db: Db, o: OrderId, d: DriverId, env: Env, depth: nat)
    requires Custody.Sane(db) && o in db.orders
    ensures var r := ReleaseRouteOffers(db, o, env, depth).db; var g := GiveBack(r, d, env, depth).db;
      && o in r.orders && r.orders[o].notes.claimedOffline == db.orders[o].notes.claimedOffline
      && o in g.orders && g.orders[o].notes.claimedOffline == db.orders[o].notes.claimedOffline
  {
    hide *;
    Custody.AlikeTame(db, db, Custody.NOBODY) by { AlikeItself(db); }
    Custody.ReleaseTame(db, db, o, env, depth);
    var r := ReleaseRouteOffers(db, o, env, depth).db;
    CustodyRuns.GiveBackTame(db, r, d, env, depth);
    Custody.TameKeys(db, r, Custody.NOBODY, o);
    Custody.TameKeys(db, GiveBack(r, d, env, depth).db, Custody.NOBODY, o);
    OriginSame(db.orders[o], r.orders[o], Custody.Leaves(Custody.NOBODY, o));
    OriginSame(db.orders[o], GiveBack(r, d, env, depth).db.orders[o], Custody.Leaves(Custody.NOBODY, o));
  }

  lemma AlikeItself(db: Db)
    ensures Custody.Alike(db, db)
  {
  }

  lemma OriginSame(a: Order, b: Order, leave: Custody.Leave)
    requires Custody.RowTame(a, b, leave)
    ensures a.notes.claimedOffline == b.notes.claimedOffline
  {
  }

  lemma DriverCancelFair(db: Db, d: DriverId, why: DriverReason, env: Env, depth: nat)
    requires Listed(db) && Custody.Sane(db)
    ensures Fair(db, DriverCancel(db, d, why, env, depth).db, Moved(db, DriverCancels(d, why)))
  {
    hide *;
    var moved := Moved(db, DriverCancels(d, why));
    StillRefl(db, db.parked);
    StillFair(db, db, moved);
    DriverCancelIs(db, d, why, env, depth);
    if RideOf(db, d).Some? {
      var o := RideOf(db, d).value;
      EndRideFair(db, o, db.orders[o], env, depth);
      OriginStays(db, o, d, env, depth);
      var r := ReleaseRouteOffers(db, o, env, depth).db;
      FairMore(db, r, {}, moved);
      if d in r.drivers {
        CarFailureFair(db, r, o, d, env, depth, moved);
        BrokenOffFair(db, r, o, d, env, depth, moved);
        EitherWay(db, r, o, d, env, depth, moved, DriverCancel(db, d, why, env, depth).db);
      }
    }
  }

  lemma EitherWay(db: Db, r: Db, o: OrderId, d: DriverId, env: Env, depth: nat, moved: set<DriverId>, x: Db)
    requires o in r.orders && d in r.drivers && Fair(db, CarFailure(r, o, d, env, depth).db, moved)
    requires var row := r.orders[o].(status := Cancelled); var c := Put(r, o, row);
      && Fair(db, Promote(LeftIfTemporary(c, d, row), d, env), moved)
      && Fair(db, ThenAway(TryPromote(StepAside(c, d, row), env, depth), d).db, moved)
    ensures BrokenOff(r, o, d, env, depth, x) ==> Fair(db, x, moved)
  {
    hide Fair, CarFailure, Promote, LeftIfTemporary, StepAside, TryPromote, ThenAway;
  }

  // Broken off by the driver, or by his car.
  predicate BrokenOff(r: Db, o: OrderId, d: DriverId, env: Env, depth: nat, x: Db)
    requires o in r.orders && d in r.drivers
  {
    var row := r.orders[o].(status := Cancelled);
    var c := Put(r, o, row);
    || x == CarFailure(r, o, d, env, depth).db || x == Promote(LeftIfTemporary(c, d, row), d, env)
    || x == ThenAway(TryPromote(StepAside(c, d, row), env, depth), d).db
  }

  // The ways in which a driver's cancellation ends, and whom it moves.
  lemma DriverCancelIs(db: Db, d: DriverId, why: DriverReason, env: Env, depth: nat)
    ensures RideOf(db, d).None? ==> DriverCancel(db, d, why, env, depth).db == db
    ensures RideOf(db, d).Some? ==>
              var o := RideOf(db, d).value; var r := ReleaseRouteOffers(db, o, env, depth).db;
              var x := DriverCancel(db, d, why, env, depth).db;
              && o in db.orders && o in r.orders
              && (db.orders[o].notes.claimedOffline <==> d in Moved(db, DriverCancels(d, why)))
              && (x == db || x == r || (d in r.drivers && BrokenOff(r, o, d, env, depth, x)))
  {
    hide RideOf, ReservationOf, ReleaseRouteOffers, CarFailure, Promote;
    hide StepAside, LeftIfTemporary, ThenAway, TryPromote;
  }

  lemma BrokenOffFair(db: Db, r: Db, o: OrderId, d: DriverId, env: Env, depth: nat, moved: set<DriverId>)
    requires Fair(db, r, moved) && o in r.orders && d in r.drivers && (r.orders[o].notes.claimedOffline ==> d in moved)
    ensures var row := r.orders[o].(status := Cancelled); var c := Put(r, o, row);
      && Fair(db, Promote(LeftIfTemporary(c, d, row), d, env), moved)
      && Fair(db, ThenAway(TryPromote(StepAside(c, d, row), env, depth), d).db, moved)
  {
    hide Fair, Listed, ReservationOf, Promote, StepAside, LeftIfTemporary, ThenAway, TryPromote, Still;
    var row := r.orders[o].(status := Cancelled);
    var c := Put(r, o, row);
    PutStill(r, o, row, r.parked);
    ThenStill(db, r, c, moved);
    StepAsideFair(db, c, d, row, moved);
    PromoteStill(LeftIfTemporary(c, d, row), d, env);
    ThenStill(db, LeftIfTemporary(c, d, row), Promote(LeftIfTemporary(c, d, row), d, env), moved);
    ThenCheck(db, StepAside(c, d, row), env, depth, moved);
    ThenAwayFair(db, TryPromote(StepAside(c, d, row), env, depth), d, moved);
  }

  lemma PromoteStill(db: Db, d: DriverId, env: Env)
    ensures Still(db, Promote(db, d, env))
  {
    hide ReservationOf;
  }

  lemma RefuseRideFair(db: Db, o: OrderId, fromChat: bool, env: Env, depth: nat)
    requires Listed(db)
    ensures Fair(db, RefuseRide(db, o, fromChat, env, depth).db, Moved(db, RefusesRide(o, fromChat)))
  {
    hide Fair, Listed, TryPromote, RefusedRide;
    var moved := Moved(db, RefusesRide(o, fromChat));
    StillFair(db, db, moved);
    if o in db.orders && db.orders[o].status == Assigned {
      RefusedRideFair(db, o, fromChat);
      ThenCheck(db, RefusedRide(db, o, fromChat), env, depth, moved);
    }
  }

  lemma RefusedRideFair(db: Db, o: OrderId, fromChat: bool)
    requires Listed(db) && o in db.orders && db.orders[o].status == Assigned
    ensures Fair(db, RefusedRide(db, o, fromChat), Moved(db, RefusesRide(o, fromChat)))
  {
    hide Fair, Listed, OffLine, RestorePosition, ReturnToQueue, Still;
    var moved := Moved(db, RefusesRide(o, fromChat));
    var row := db.orders[o];
    var closed := Put(db, o, row.(status := Cancelled));
    PutStill(db, o, row.(status := Cancelled), db.parked);
    StillFair(db, closed, moved);
    if row.driver.Some? && row.driver.value in db.drivers {
      FairListed(db, closed, moved);
      SentOffFair(closed, row.driver.value);
      var d := row.driver.value;
      StandStill(closed, d);
      ThenStill(db, closed, RestorePosition(closed, d), moved);
      if RefusalMoves(db, o, fromChat) {
        FairThen(db, closed, OffLine(closed, d), moved);
        FairThen(db, closed, ReturnToQueue(closed, d), moved);
      }
    }
  }

  lemma SentOffFair(db: Db, d: DriverId)
    requires Listed(db) && d in db.drivers
    ensures Fair(db, OffLine(db, d), {d}) && Fair(db, ReturnToQueue(db, d), {d})
  {
    hide Fair, Listed, OffLine, RestorePosition, Join, Still;
    StandStill(db, d);
    LeaveFair(db, d);
    if d in db.queue { JoinFair(db, d, db.queue[d].line); }
    else { StillFair(db, ReturnToQueue(db, d), {d}); }
  }

  // ---------------------------------------------------------------- passengers

  lemma CreateOrderFair(db: Db, request: Request, env: Env, depth: nat)
    requires Listed(db)
    ensures Fair(db, CreateOrder(db, request, env, depth).db, {})
  {
    hide Fair, Listed, OfferToNextDriver, Repair, HasWaiting, ParkAndNotify, Enqueue, Still;
    var o := db.nextOrder;
    var added := AddOrder(db, request.(requested := None));
    AddedStill(db, request.(requested := None));
    StillFair(db, added, {});
    FairListed(db, added, {});
    EnqueueStill(added, o);
    ThenStill(db, added, Enqueue(added, o), {});
    ThenOffer(db, added, o, {}, env, depth, {});
    RepairFair(added);
    var mid := Repair(added);
    FairThen(db, added, mid, {});
    FairListed(db, mid, {});
    ThenOffer(db, mid, o, {}, env, depth, {});
    EnqueueStill(mid, o);
    ThenStill(db, mid, Enqueue(mid, o), {});
    FairListed(db, Enqueue(mid, o), {});
    ParkFair(Enqueue(mid, o), o, env, depth);
    FairThen(db, Enqueue(mid, o), ParkAndNotify(Enqueue(mid, o), o, env, depth).db, {});
    if RouteCity(added.orders[o]).Some? {
      var line := Some(VillageLine(RouteCity(added.orders[o]).value));
      OfferFair(mid, o, {}, line, env, depth);
      FairThen(db, mid, OfferToNextDriver(mid, o, {}, line, env, depth).db, {});
    }
  }

  lemma AddedStill(db: Db, request: Request)
    ensures Still(db, AddOrder(db, request))
  {
  }

  lemma EnqueueStill(db: Db, o: OrderId)
    requires o in db.orders
    ensures Still(db, Enqueue(db, o))
  {
  }

  lemma SelectionStill(db: Db, p: PassengerId, d: DriverId, h: nat, request: Request, env: Env)
    ensures h in db.holds ==> Still(db, DropHold(db, h))
    ensures Still(db, SelectDriver(db, p, d))
    ensures Still(db, SubmitDirect(db, h, request, env))
  {
    hide HoldBelow, RideOf, OfferOf;
  }

  lemma RequestFair(db: Db, ev: Event, env: Env, depth: nat)
    requires Listed(db) && IsRequest(ev)
    ensures Fair(db, Requesting(db, ev, env, depth).db, {})
  {
    hide Fair, Listed, OfferToNextDriver, TryPromote, SelectDriver, SubmitDirect, DropHold, CreateOrder, SetPark;
    StillFair(db, db, {});
    match ev
    case NewOrder(request) => CreateOrderFair(db, request, env, depth);
    case Select(p, d) =>
      SelectionStill(db, p, d, 0, Request(0, false, false, Route(None, None, None, None, false), None), env);
      StillFair(db, SelectDriver(db, p, d), {});
    case DropSelection(h) =>
      if h in db.holds {
        SelectionStill(db, 0, 0, h, Request(0, false, false, Route(None, None, None, None, false), None), env);
        StillFair(db, DropHold(db, h), {});
        ThenCheck(db, DropHold(db, h), env, depth, {});
      }
    case Submit(h, request) =>
      SelectionStill(db, 0, 0, h, request, env);
      StillFair(db, SubmitDirect(db, h, request, env), {});
    case Answer(o, actual) => AnswerFair(db, o, actual, env, depth);
    case NewAddress(o, route) =>
      if o in db.orders {
        var again := Put(db, o, Readdressed(db.orders[o], route)).(parked := Unpark(db.parked, o));
        PutStill(db, o, Readdressed(db.orders[o], route), Unpark(db.parked, o));
        StillFair(db, again, {});
        ThenOffer(db, again, o, {}, env, depth, {});
      }
  }

  lemma AnswerFair(db: Db, o: OrderId, actual: bool, env: Env, depth: nat)
    requires Listed(db)
    ensures Fair(db, Confirm(db, o, actual, env, depth).db, {})
    ensures Fair(db, PollTimeout(db, o, env, depth).db, {})
  {
    hide Fair, Listed, TryPromote, SetPark, PausePrompts;
    StillFair(db, db, {});
    StillRefl(db, SetPark(db.parked, o, ParkWaiting));
    StillFair(db, db.(parked := SetPark(db.parked, o, ParkWaiting)), {});
    if o in db.orders {
      StillFair(db, CloseParked(db, o), {});
      ThenCheck(db, CloseParked(db, o), env, depth, {});
      var row := db.orders[o].(notes := db.orders[o].notes.(confirmed := true));
      var parked := SetPark(PausePrompts(db.parked, Some(o)), o, ParkWaiting);
      PutStill(db, o, row, parked);
      StillFair(db, Put(db, o, row).(parked := parked), {});
      ThenCheck(db, Put(db, o, row).(parked := parked), env, depth, {});
    }
  }

  // ---------------------------------------------------------------- the line

  lemma GoOnlineFair(db: Db, d: DriverId, env: Env, depth: nat)
    requires Listed(db)
    ensures Fair(db, GoOnline(db, d, env, depth).db, Moved(db, GoesOnline(d)))
  {
    hide Fair, Listed, TryPromote, RideOf, OfferOf, Join, OnLineNow, Still, ReturnLine;
    StillRefl(db, db.parked);
    StillFair(db, db, {});
    if Comes(db, GoesOnline(d)) {
      JoinedFair(db, d, ReturnLine(db, d), env, depth);
    }
  }

  lemma SetLineFair(db: Db, d: DriverId, line: Line, env: Env, depth: nat)
    requires Listed(db)
    ensures Fair(db, SetLine(db, d, line, env, depth).db, Moved(db, PicksLine(d, line)))
  {
    hide Fair, Listed, TryPromote, RideOf, OfferOf, Join, OnLineNow, Still, WithLine;
    StillRefl(db, db.parked);
    StillFair(db, db, {});
    if Comes(db, PicksLine(d, line)) {
      var there := OnLineNow(Join(db, d, Some(line)), d);
      JoinFair(db, d, Some(line));
      LineStill(there, d, line);
      ThenStill(db, there, WithLine(there, d, line), {d});
      ThenCheck(db, WithLine(there, d, line), env, depth, {d});
    }
  }

  lemma StayLineFair(db: Db, d: DriverId, env: Env, depth: nat)
    requires Listed(db)
    ensures Fair(db, StayLine(db, d, env, depth).db, Moved(db, StaysOnLine(d)))
  {
    hide Fair, Listed, TryPromote, RideOf, OfferOf, Join, OnLineNow, Still;
    StillRefl(db, db.parked);
    StillFair(db, db, {});
    if MenuOpen(db, d) {
      JoinedFair(db, d, KnownLine(db, d), env, depth);
      StandStill(db, d);
      StillFair(db, OnLineNow(db, d), {});
      ThenCheck(db, OnLineNow(db, d), env, depth, {});
    }
  }

  lemma JoinedFair(db: Db, d: DriverId, line: Option<Line>, env: Env, depth: nat)
    requires Listed(db) && d in db.drivers
    ensures Fair(db, TryPromote(OnLineNow(Join(db, d, line), d), env, depth).db, {d})
  {
    hide Fair, Listed, TryPromote, Join, OnLineNow;
    JoinFair(db, d, line);
    ThenCheck(db, OnLineNow(Join(db, d, line), d), env, depth, {d});
  }

  lemma LineStill(db: Db, d: DriverId, line: Line)
    requires d in db.drivers
    ensures Still(db, WithLine(db, d, line))
  {
  }

  lemma GoneFair(db: Db, mid: Db, d: DriverId, away: bool)
    requires Fair(db, mid, If(!away, d)) && d in mid.drivers
    ensures Fair(db, Gone(mid, d, away), If(!away, d))
  {
    hide Fair, Listed, OffLine, SetAway;
    FairListed(db, mid, If(!away, d));
    LeaveFair(mid, d);
    if !away { FairThen(db, mid, OffLine(mid, d), {d}); }
    StandStill(mid, d);
    ThenStill(db, mid, SetAway(mid, d), If(!away, d));
  }

  lemma LeavingFair(db: Db, d: DriverId)
    requires Listed(db)
    ensures Fair(db, LeaveLine(db, d), Moved(db, LeavesLine(d)))
    ensures Fair(db, AwayExpire(db, d), Moved(db, AwayExpires(d)))
  {
    hide Fair, Listed, OffLine, RideOf, OfferOf;
    StillFair(db, db, {});
    if d in db.drivers { LeaveFair(db, d); }
  }

  lemma StepOutFair(db: Db, d: DriverId, away: bool, env: Env, depth: nat)
    requires Listed(db)
    ensures Fair(db, StepOut(db, d, away, env, depth).db, Moved(db, StepsOut(d, away)))
  {
    hide Fair, Listed, RideOf, OfferOf, TryPromote, HoldBelow, DropHold, Gone, OfferToNextDriver;
    StillFair(db, db, {});
    if MenuOpen(db, d) {
      var moved := If(!away, d);
      StillFair(db, db, moved);
      GoneFair(db, db, d, away);
      var h := HoldBelow(db.holds, None, Some(d), db.nextHold);
      if h.Some? {
        SelectionStill(db, 0, d, h.value, Request(0, false, false, Route(None, None, None, None, false), None), env);
        StillFair(db, DropHold(db, h.value), moved);
        ThenCheck(db, DropHold(db, h.value), env, depth, moved);
        var r := TryPromote(DropHold(db, h.value), env, depth).db;
        if d in r.drivers { HandedOnFair(db, r, d, away, env, depth); }
      }
    }
  }

  // What a driver stepping out leaves behind.
  lemma HandedOnFair(db: Db, r: Db, d: DriverId, away: bool, env: Env, depth: nat)
    requires Fair(db, r, If(!away, d)) && d in r.drivers
    ensures Fair(db, Gone(r, d, away), If(!away, d))
    ensures OfferOf(r, d).Some? ==>
              var p := OfferOf(r, d).value;
              var row := WithRefusal(r.orders[p], d, false).(offered := None);
              && p in Put(Gone(r, d, away), p, row).orders
              && Fair(db, Put(Gone(r, d, away), p, row.(status := Cancelled)), If(!away, d))
              && Fair(db, OfferToNextDriver(Put(Gone(r, d, away), p, row), p, {}, None, env, depth).db, If(!away, d))
  {
    hide Fair, Listed, Gone, OfferToNextDriver, OfferBelow, WithRefusal, If;
    GoneFair(db, r, d, away);
    if OfferOf(r, d).Some? {
      var p := OfferOf(r, d).value;
      var row := WithRefusal(r.orders[p], d, false).(offered := None);
      var gone := Gone(r, d, away);
      PutStill(gone, p, row, gone.parked);
      PutStill(gone, p, row.(status := Cancelled), gone.parked);
      ThenStill(db, gone, Put(gone, p, row), If(!away, d));
      ThenStill(db, gone, Put(gone, p, row.(status := Cancelled)), If(!away, d));
      ThenOffer(db, Put(gone, p, row), p, {}, env, depth, If(!away, d));
    }
  }

  // ---------------------------------------------------------------- who is asked

  // An order looking for a driver is put before an eligible driver of its line
  // whom no other eligible driver stands ahead of.
  lemma FirstIsAsked(db: Db, o: OrderId, skip: set<DriverId>, line: Option<Line>, env: Env, depth: nat, x: DriverId)
    requires RosterOk(db) && DistinctPositions(db.queue) && o in db.orders && Offerable(db.orders[o]) && depth >= 1
    requires Eligible(Repair(db), if line.Some? then line.value else StageLine(db.orders[o]),
                      db.orders[o].notes.declined + skip, x)
    ensures var r := OfferToNextDriver(db, o, skip, line, env, depth);
      && r.Done? && r.offered && o in r.db.orders && r.db.orders[o].status == Searching && r.db.orders[o].offered.Some?
      && var d := r.db.orders[o].offered.value;
      && d !in db.orders[o].notes.declined + skip && d in Repair(db).queue && Repair(db).queue[d].status == Waiting
      && (d == x || Ahead(Repair(db).queue, d, x))
      && d in r.db.queue && r.db.queue == Repair(db).queue[d := Repair(db).queue[d].(status := Offered)]
  {
    hide Repair, PickFrom, HandleNoDriver, StageLine, RosterOk, Repaired;
    RepairDoes(db);
    RepairFrame(db);
    var target := if line.Some? then line.value else StageLine(db.orders[o]);
    PickIsFirst(Repair(db), target, db.orders[o].notes.declined + skip);
  }

  // ---------------------------------------------------------------- every step

  lemma EndingFair(db: Db, ev: Event, env: Env, depth: nat)
    requires Listed(db) && Custody.Sane(db) && IsCancellation(ev)
    ensures Fair(db, Ending(db, ev, env, depth).db, Moved(db, ev))
  {
    hide Fair, Listed, Temporary, RefusalMoves, Custody.Sane, Complete;
    hide PassengerCancel, DispatcherCancel, AdminCancel, DriverCancel, RefuseRide, RideOf;
    match ev
    case PassengerCancels(o) => PassengerCancelFair(db, o, env, depth);
    case DispatcherCancels(o) => DispatcherCancelFair(db, o, env, depth);
    case AdminCancels(o) => AdminCancelFair(db, o, env, depth);
    case RefusesRide(o, fromChat) => RefuseRideFair(db, o, fromChat, env, depth);
    case DriverCancels(d, why) => DriverCancelFair(db, d, why, env, depth);
    case Completes(d) => CompleteFair(db, d, env, depth);
  }

  lemma ClaimFair(db: Db, ev: Event, env: Env, depth: nat)
    requires Listed(db) && IsClaim(ev)
    ensures Fair(db, Claiming(db, ev, env, depth).db, Moved(db, ev))
  {
    hide Fair, Listed, Accept, TakePending, TakeFromChat, Reserve;
    match ev
    case Accepts(o, d) => AcceptFair(db, o, d, env, depth);
    case ClaimsPending(o, d) => TakePendingFair(db, o, d, env);
    case ClaimsFromChat(o, d) => TakeFromChatFair(db, o, d, env, depth);
    case ReservesOrder(o, d, card) => ReserveFair(db, o, d, card, env);
  }

  lemma RefusalFair(db: Db, ev: Event, env: Env, depth: nat)
    requires Listed(db) && IsRefusal(ev)
    ensures Fair(db, Refusing(db, ev, env, depth).db, Moved(db, ev))
  {
    hide Fair, Listed, Decline, DeclineReserved, DeclineRoute, AcceptTimeout, Unreachable;
    match ev
    case Declines(o, d, reason) => DeclineFair(db, o, d, reason, env, depth);
    case DeclinesReserved(o, d) => DeclineReservedFair(db, o, d, env, depth);
    case DeclinesCard(o, d) => CardFair(db, o, d, env, depth);
    case OfferExpires(o, d) => SilenceFair(db, o, d, env, depth);
    case OfferUndeliverable(o, d) => SilenceFair(db, o, d, env, depth);
  }

  lemma LineFair(db: Db, ev: Event, env: Env, depth: nat)
    requires Listed(db) && IsLine(ev)
    ensures Fair(db, OnTheLine(db, ev, env, depth).db, Moved(db, ev))
  {
    hide Fair, Listed, GoOnline, SetLine, StayLine, LeaveLine, StepOut, AwayExpire;
    match ev
    case GoesOnline(d) => GoOnlineFair(db, d, env, depth);
    case PicksLine(d, line) => SetLineFair(db, d, line, env, depth);
    case StaysOnLine(d) => StayLineFair(db, d, env, depth);
    case LeavesLine(d) => LeavingFair(db, d);
    case StepsOut(d, away) => StepOutFair(db, d, away, env, depth);
    case AwayExpires(d) => LeavingFair(db, d);
  }

  lemma TimingFair(db: Db, ev: Event, env: Env, depth: nat)
    requires Listed(db)
    ensures Fair(db, Timing(db, ev, env, depth).db, {})
  {
    hide *;
    TimingIs(db, ev, env, depth);
    if ev.CardExpires? { CardFair(db, ev.order, 0, env, depth); }
    else if ev.TimeUnnamed? { DeclineReservedFair(db, ev.order, 0, env, depth); }
    else if ev.QuestionExpires? { AnswerFair(db, ev.order, true, env, depth); }
    else if ev.DispatcherOrderExpires? {
      LapseStill(db, ev.order);
      StillFair(db, DispatcherUnclaimed(db, ev.order), {});
    } else if ev.ChatOrderExpires? {
      LapseStill(db, ev.order);
      StillFair(db, ChatTimeout(db, ev.order), {});
    } else {
      PromoteFair(db, env, depth, {});
    }
  }

  lemma LapseStill(db: Db, o: OrderId)
    ensures Still(db, DispatcherUnclaimed(db, o)) && Still(db, ChatTimeout(db, o))
  {
  }

  // Every transaction, finished or rolled back, is fair.
  lemma StepFair(db: Db, ev: Event, env: Env, depth: nat)
    requires Listed(db) && Custody.Sane(db)
    ensures Fair(db, Step(db, ev, env, depth), Moved(db, ev))
  {
    hide Fair, Listed, Still, Moved, Requesting, Ending, Claiming, Refusing, OnTheRide, OnTheLine, Timing;
    StillRefl(db, db.parked);
    StillFair(db, db, Moved(db, ev));
    if IsRequest(ev) {
      RequestFair(db, ev, env, depth);
      FairMore(db, Requesting(db, ev, env, depth).db, {}, Moved(db, ev));
    } else if IsCancellation(ev) { EndingFair(db, ev, env, depth); }
    else if IsClaim(ev) { ClaimFair(db, ev, env, depth); }
    else if IsRefusal(ev) { RefusalFair(db, ev, env, depth); }
    else if IsRiding(ev) { RideFair(db, ev, env); FairMore(db, OnTheRide(db, ev, env), {}, Moved(db, ev)); }
    else if IsLine(ev) { LineFair(db, ev, env, depth); }
    else { TimingFair(db, ev, env, depth); FairMore(db, Timing(db, ev, env, depth).db, {}, Moved(db, ev)); }
  }

  // ---------------------------------------------------------------- every run

  // Driver d is not sent away by any of the turns from i to j.
  ghost predicate Patient(db: Db, turns: seq<Turn>, i: nat, j: nat, d: DriverId)
    requires i <= j <= |turns|
  {
    forall k :: i <= k < j ==> d !in Moved(After(db, turns, k), turns[k].ev)
  }

  lemma {:induction false} RunListed(db: Db, turns: seq<Turn>, n: nat)
    requires Listed(db) && Custody.Sane(db) && n <= |turns|
    ensures Listed(After(db, turns, n))
    decreases n
  {
    hide Listed, Custody.Sane, Step;
    if n > 0 {
      RunListed(db, turns, n - 1);
      CustodyRuns.RunSane(db, turns, n - 1);
      var before := After(db, turns, n - 1);
      StepFair(before, turns[n - 1].ev, turns[n - 1].env, turns[n - 1].depth);
      FairListed(before, After(db, turns, n), Moved(before, turns[n - 1].ev));
    }
  }

  // Whoever waits patiently keeps his very position through any run.
  lemma {:induction false} PatienceKeepsPlace(db: Db, turns: seq<Turn>, i: nat, j: nat, d: DriverId)
    requires Listed(db) && Custody.Sane(db) && i <= j <= |turns| && Patient(db, turns, i, j, d)
    requires d in After(db, turns, i).queue
    ensures Stays(After(db, turns, i).queue, After(db, turns, j).queue, d)
    decreases j
  {
    hide Listed, Custody.Sane, Step, Moved;
    if i < j {
      PatienceKeepsPlace(db, turns, i, j - 1, d);
      RunListed(db, turns, j - 1);
      CustodyRuns.RunSane(db, turns, j - 1);
      var a, ev := After(db, turns, j - 1), turns[j - 1].ev;
      StepFair(a, ev, turns[j - 1].env, turns[j - 1].depth);
      assert PlaceKept(a, After(db, turns, j), Moved(a, ev), d);
    }
  }

  // Only whoever keeps his own place can be ahead of a driver who keeps his.
  lemma StepAhead(a: Db, b: Db, moved: set<DriverId>, d: DriverId, x: DriverId)
    requires Fair(a, b, moved) && d in a.queue && d !in moved && x != d && Ahead(b.queue, x, d)
    ensures Stays(a.queue, b.queue, x) && Ahead(a.queue, x, d)
  {
    assert PlaceKept(a, b, moved, d) && PlaceKept(a, b, moved, x);
  }

  // Nobody overtakes a patient driver: whoever stands ahead of him after a run
  // stood there before it, in the same place, all the time.
  lemma {:induction false} NobodyOvertakes(db: Db, turns: seq<Turn>, i: nat, j: nat, d: DriverId, x: DriverId)
    requires Listed(db) && Custody.Sane(db) && i <= j <= |turns| && Patient(db, turns, i, j, d)
    requires d in After(db, turns, i).queue && x != d
    requires Ahead(After(db, turns, j).queue, x, d)
    ensures Ahead(After(db, turns, i).queue, x, d)
    ensures forall k :: i <= k <= j ==> Stays(After(db, turns, i).queue, After(db, turns, k).queue, x)
    decreases j
  {
    hide Listed, Custody.Sane, Step, Moved, Fair;
    if i < j {
      PatienceKeepsPlace(db, turns, i, j - 1, d);
      RunListed(db, turns, j - 1);
      CustodyRuns.RunSane(db, turns, j - 1);
      var a, b := After(db, turns, j - 1), After(db, turns, j);
      var moved := Moved(a, turns[j - 1].ev);
      StepFair(a, turns[j - 1].ev, turns[j - 1].env, turns[j - 1].depth);
      StepAhead(a, b, moved, d, x);
      NobodyOvertakes(db, turns, i, j - 1, d, x);
    }
  }
}
