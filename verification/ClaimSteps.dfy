// Claims that need no offer: from the list of pending requests, and from the
// requests chat.
module ClaimSteps {
  import opened Options
  import opened DispatchState
  import opened OrderTable
  import opened DriverLine
  import opened Cascade
  import opened CascadeInv
  import opened Frames
  import opened PassengerQueue
  import opened Transactions
  import opened Trips
  import opened Handoff
  import opened OfferSteps

  // The earliest live offer below n in front of driver d.
  function OfferBelow(orders: Orders, d: DriverId, n: OrderId): (r: Option<OrderId>)
    ensures r.Some? ==> LiveOffer(orders, r.value, d)
    ensures r.None? ==> forall a: OrderId :: a < n && LiveOffer(orders, a, d) ==> orders[a].driver.Some?
  {
    if n == 0 then None
    else
      var rest := OfferBelow(orders, d, n - 1);
      if rest.Some? then rest
      else if LiveOffer(orders, n - 1, d) && orders[n - 1].driver.None? then Some(n - 1) else None
  }

  function OfferOf(db: Db, d: DriverId): Option<OrderId> { OfferBelow(db.orders, d, db.nextOrder) }

  lemma OfferOfIsOffer(db: Db, d: DriverId)
    requires Inv(db)
    ensures OfferOf(db, d).None? <==> !OfferedTo(db, d)
    ensures OfferOf(db, d).Some? ==> LiveOffer(db.orders, OfferOf(db, d).value, d)
  {
    if OfferedTo(db, d) {
      var a :| a in db.orders && LiveOffer(db.orders, a, d);
      assert a < db.nextOrder && RowOk(db.orders[a]);
    }
  }

  // A driver who was off the line or away joins it at the tail.
  function BroughtIn(db: Db, d: DriverId, line: Option<Line>): Db
    requires d in db.drivers
  {
    SetDriver(Join(db, d, line), d, true, Online)
  }

  function Pending(row: Order): bool
  {
    row.status in {Created, Queued, NoDrivers, Searching, ChatSearch}
    && row.driver.None? && row.reserved.None? && row.offered.None?
  }

  function WithOrigin(row: Order, offline: bool): Order
  {
    row.(notes := row.notes.(claimedOffline := offline))
  }

  // The driver, ready to ride, takes the order out of every queue.
  function TakeOver(db: Db, o: OrderId, d: DriverId, offline: bool, env: Env): Db
    requires o in db.orders && d in db.drivers
  {
    Put(MarkAssigned(db, d), o, WithOrigin(Claimed(db.orders[o], o, d, env), offline))
      .(parked := Unpark(db.parked, o))
  }

  predicate PendingOpen(db: Db, o: OrderId, d: DriverId)
  {
    && o in db.orders && d in db.drivers && OfferOf(db, d).None? && RideOf(db, d).None?
    && !db.drivers[d].suspended && db.drivers[d].carReady
    && db.drivers[d].currentLine.Some? && db.drivers[d].currentLine.value in db.lines
    && Pending(db.orders[o])
  }

  predicate OffTheLine(db: Db, d: DriverId)
    requires d in db.drivers
  {
    db.drivers[d].status in {Offline, Away} || !db.drivers[d].onLine
  }

  function TakePending(db: Db, o: OrderId, d: DriverId, env: Env): Outcome
  {
    if !PendingOpen(db, o, d) then Done(db, false)
    else
      var ready := if OffTheLine(db, d) then BroughtIn(db, d, db.drivers[d].currentLine) else db;
      Done(TakeOver(ready, o, d, false, env), false)
  }

  // The chat button refuses a driver with another ride, an order somebody else
  // owns, and an order no longer unclaimed.
  predicate ChatOpen(db: Db, o: OrderId, d: DriverId)
  {
    && o in db.orders && d in db.drivers
    && (RideOf(db, d).Some? ==> RideOf(db, d) == Some(o))
    && (db.orders[o].driver.Some? ==> db.orders[o].driver == Some(d))
    && !Riding(db.orders[o].status) && db.orders[o].status != ParallelAssigned && !Closed(db.orders[o].status)
  }

  // An offline or away driver joins his saved line, if it still exists.
  function Readied(db: Db, d: DriverId): (r: Db)
    requires d in db.drivers
    ensures r.orders == db.orders && d in r.drivers
  {
    var line := db.drivers[d].currentLine;
    var known := if line.Some? && line.value in db.lines then line else None;
    if !db.drivers[d].onLine || db.drivers[d].status == Away then BroughtIn(db, d, known) else db
  }

  // A live offer in front of the claiming driver is withdrawn first and handed
  // on afterwards; an error in handing it on is swallowed.
  function TakeFromChat(db: Db, o: OrderId, d: DriverId, env: Env, depth: nat): Outcome
  {
    if !ChatOpen(db, o, d) then Done(db, false)
    else
      var offer := OfferOf(db, d);
      var other := if offer == Some(o) then None else offer;
      var freed := if other.Some?
                   then Put(ReleaseOffer(db, d), other.value, db.orders[other.value].(offered := None)) else db;
      var taken := TakeOver(Readied(freed, d), o, d, !freed.drivers[d].onLine, env);
      if other.Some? then Done(OfferToNextDriver(taken, other.value, {}, None, env, depth).db, false)
      else Done(taken, false)
  }

  // ---------------------------------------------------------------- proofs

  lemma BroughtInIsLocal(db: Db, d: DriverId, line: Option<Line>)
    requires d in db.drivers
    ensures OnlyDriver(db, BroughtIn(db, d, line), d)
    ensures OnlyDriver(db, MarkAssigned(BroughtIn(db, d, line), d), d)
    ensures MarkAssigned(BroughtIn(db, d, line), d).drivers[d].status == Busy
  {
    hide MaxPosition;
  }

  lemma TakenRow(row: Order, o: OrderId, d: DriverId, offline: bool, env: Env)
    requires row.driver.None? && !Closed(row.status)
    ensures var r := WithOrigin(Claimed(row, o, d, env), offline);
      RowOk(r) && Owns(r, d, Ride) && r.slot == NO_ROUTE_OFFER && RowClaim(row, r, d)
  {
  }

  // A driver with no commitment takes an order nobody rides or has reserved.
  lemma TakeOverKeeps(db: Db, ready: Db, o: OrderId, d: DriverId, offline: bool, env: Env)
    requires Inv(db) && o in db.orders
    requires d in ready.drivers && ready.orders == db.orders && OnlyDriver(db, MarkAssigned(ready, d), d)
    requires !HasClaim(db.orders, d, Ride) && !HasClaim(db.orders, d, Reservation)
    requires !OfferedTo(db, d) || LiveOffer(db.orders, o, d)
    requires db.orders[o].driver.None? && db.orders[o].reserved.None? && !Closed(db.orders[o].status)
    ensures var r := TakeOver(ready, o, d, offline, env); Inv(r) && Claims(db, r, o, d) && Owns(r.orders[o], d, Ride)
  {
    hide InvDuring, Lawful, RowOk, RowLaw, RowClaim, OrdersInv, ParkedOk, HasClaim, OfferedTo;
    var mid := MarkAssigned(ready, d);
    var row := WithOrigin(Claimed(db.orders[o], o, d, env), offline);
    var r := TakeOver(ready, o, d, offline, env);
    RowParts(db, o, None);
    TakenRow(db.orders[o], o, d, offline, env);
    SameOrders(db, mid, d);
    ReleaseFirst(db, o, d);
    var freed := Put(db, o, db.orders[o].(offered := None));
    SwapPut(db, mid, o, db.orders[o].(offered := None), d);
    var free := Put(mid, o, db.orders[o].(offered := None));
    DriverMoves(freed, free, d, None);
    FreeMeansFreeBut(freed, o, d);
    UnparkLeavesOk(free, o, row) by { RowParts(free, o, None); }
    RideRow(free, o, row, d, Unpark(free.parked, o), None);
    assert r == Put(free, o, row).(parked := Unpark(free.parked, o));
    LawfulRefl(db);
    ClaimPut(db, db, o, row, d, r);
  }

  // An unassigned order with its offer, if it has one, withdrawn.
  lemma ReleaseFirst(db: Db, o: OrderId, d: DriverId)
    requires Inv(db) && o in db.orders
    requires db.orders[o].driver.None? && db.orders[o].reserved.None? && !Closed(db.orders[o].status)
    requires !HasClaim(db.orders, d, Ride) && !HasClaim(db.orders, d, Reservation)
    requires !OfferedTo(db, d) || LiveOffer(db.orders, o, d)
    ensures var freed := Put(db, o, db.orders[o].(offered := None));
      && Inv(freed) && Holder(freed.orders[o]).None?
      && !OfferedTo(freed, d) && !HasClaim(freed.orders, d, Ride) && !HasClaim(freed.orders, d, Reservation)
  {
    hide RosterOk, Seated, DistinctPositions, OrdersInv;
    RowParts(db, o, None);
    var row := db.orders[o].(offered := None);
    assert db.orders[o].offered.None? ==> row == db.orders[o] && Put(db, o, row) == db by {
      assert db.orders[o := db.orders[o]] == db.orders;
    }
    if db.orders[o].offered.Some? {
      ClosedElsewhere(db, o, row);
      FreeRow(db, o, row, db.parked, None);
      assert Put(db, o, row) == Put(db, o, row).(parked := db.parked);
      NobodyElse(db, o, d);
      FreedDriver(db, o, d, row);
    }
  }

  lemma NobodyElse(db: Db, o: OrderId, d: DriverId)
    requires Inv(db)
    requires !HasClaim(db.orders, d, Ride) && !HasClaim(db.orders, d, Reservation)
    requires !OfferedTo(db, d) || LiveOffer(db.orders, o, d)
    ensures FreeBut(db.orders, d, o)
  {
    if LiveOffer(db.orders, o, d) {
      assert Owns(db.orders[o], d, Offer);
      OfferExcludesWork(db.orders, o, d);
    } else {
      FreeMeansFreeBut(db, o, d);
    }
  }

  // A driver without a ride has no reservation either.
  lemma NoRideNoWork(db: Db, d: DriverId)
    requires Inv(db) && RideOf(db, d).None?
    ensures !HasClaim(db.orders, d, Ride) && !HasClaim(db.orders, d, Reservation)
  {
    RideOfIsRide(db, d, None);
    assert Backed(db.orders, None);
    forall a | a in db.orders ensures !Owns(db.orders[a], d, Reservation) { }
  }

  lemma TakePendingSound(db: Db, o: OrderId, d: DriverId, env: Env)
    requires Inv(db)
    ensures ClaimSound(db, TakePending(db, o, d, env), o, d)
    ensures var r := TakePending(db, o, d, env).db;
      if PendingOpen(db, o, d) then o in r.orders && Owns(r.orders[o], d, Ride) else r == db
  {
    hide Inv, InvDuring, Lawful, TakeOver, BroughtIn, OfferedTo, HasClaim, OnlyDriver;
    LawfulRefl(db);
    OfferOfIsOffer(db, d);
    if PendingOpen(db, o, d) {
      NoRideNoWork(db, d);
      var ready := if OffTheLine(db, d) then BroughtIn(db, d, db.drivers[d].currentLine) else db;
      BroughtInIsLocal(db, d, db.drivers[d].currentLine);
      MarkIsLocal(db, d);
      assert ready.orders == db.orders && d in ready.drivers by { BroughtInOrders(db, d, db.drivers[d].currentLine); }
      TakeOverKeeps(db, ready, o, d, false, env);
    }
  }

  lemma BroughtInOrders(db: Db, d: DriverId, line: Option<Line>)
    requires d in db.drivers
    ensures BroughtIn(db, d, line).orders == db.orders && d in BroughtIn(db, d, line).drivers
    ensures BroughtIn(db, d, line).parked == db.parked
  {
  }

  lemma TakeFromChatSound(db: Db, o: OrderId, d: DriverId, env: Env, depth: nat)
    requires Inv(db)
    ensures ClaimSound(db, TakeFromChat(db, o, d, env, depth), o, d)
    ensures var r := TakeFromChat(db, o, d, env, depth).db;
      if ChatOpen(db, o, d) then o in r.orders && Owns(r.orders[o], d, Ride) else r == db
  {
    hide Inv, InvDuring, Lawful, TakeOver, BroughtIn, OfferedTo, HasClaim, OnlyDriver, OfferToNextDriver, Calm, Claims;
    LawfulRefl(db);
    if ChatOpen(db, o, d) {
      OfferOfIsOffer(db, d);
      ChatRideNone(db, o, d);
      var offer := OfferOf(db, d);
      var other := if offer == Some(o) then None else offer;
      if other.Some? {
        OtherFirst(db, o, d, other.value, env, depth);
      } else {
        TakeReady(db, db, o, d, env);
      }
    }
  }

  // The chat never finds the claiming driver riding, nor the order owned.
  lemma ChatRideNone(db: Db, o: OrderId, d: DriverId)
    requires Inv(db) && ChatOpen(db, o, d)
    ensures RideOf(db, d).None? && db.orders[o].driver.None? && db.orders[o].reserved.None?
    ensures !HasClaim(db.orders, d, Ride) && !HasClaim(db.orders, d, Reservation)
  {
    RowParts(db, o, None);
    RideOfIsRide(db, d, None);
    NoRideNoWork(db, d);
  }

  lemma TakeReady(db: Db, freed: Db, o: OrderId, d: DriverId, env: Env)
    requires Inv(freed) && Lawful(db, freed) && o in freed.orders && d in freed.drivers
    requires !HasClaim(freed.orders, d, Ride) && !HasClaim(freed.orders, d, Reservation)
    requires !OfferedTo(freed, d) || LiveOffer(freed.orders, o, d)
    requires o in db.orders && freed.orders[o] == db.orders[o]
    requires db.orders[o].driver.None? && db.orders[o].reserved.None? && !Closed(db.orders[o].status)
    ensures var r := TakeOver(Readied(freed, d), o, d, !freed.drivers[d].onLine, env);
      Inv(r) && Claims(db, r, o, d) && Owns(r.orders[o], d, Ride) && r.orders == freed.orders[o := r.orders[o]]
      && r.parked == Unpark(freed.parked, o)
  {
    hide Inv, InvDuring, Lawful, BroughtIn, OfferedTo, HasClaim, OnlyDriver, RowLaw;
    var line := freed.drivers[d].currentLine;
    var known := if line.Some? && line.value in freed.lines then line else None;
    BroughtInIsLocal(freed, d, known);
    BroughtInOrders(freed, d, known);
    MarkIsLocal(freed, d);
    TakeOverKeeps(freed, Readied(freed, d), o, d, !freed.drivers[d].onLine, env);
    var r := TakeOver(Readied(freed, d), o, d, !freed.drivers[d].onLine, env);
    TakenRow(db.orders[o], o, d, !freed.drivers[d].onLine, env);
    ClaimPut(db, freed, o, r.orders[o], d, r);
  }

  lemma OtherFirst(db: Db, o: OrderId, d: DriverId, p: OrderId, env: Env, depth: nat)
    requires Inv(db) && ChatOpen(db, o, d) && p != o && LiveOffer(db.orders, p, d)
    requires OfferOf(db, d) == Some(p)
    requires db.orders[o].driver.None? && db.orders[o].reserved.None? && !Closed(db.orders[o].status)
    ensures ClaimSound(db, TakeFromChat(db, o, d, env, depth), o, d)
    ensures var r := TakeFromChat(db, o, d, env, depth).db; o in r.orders && Owns(r.orders[o], d, Ride)
  {
    hide InvDuring, Lawful, TakeOver, BroughtIn, OfferedTo, HasClaim, OnlyDriver, OfferToNextDriver, Calm;
    hide ReleaseOffer, RowOk, RowLaw;
    var row := db.orders[p].(offered := None);
    var freed := Put(ReleaseOffer(db, d), p, row);
    OfferedIsSearching(db, p);
    WithdrawnClosed(db.orders[p], d, env);
    ReleaseIsLocal(db, d, Dislike);
    OfferFreed(db, p, d, row, ReleaseOffer(db, d), env);
    OfferGone(db, p, d, row, env);
    assert freed.orders == Put(db, p, row).orders && d in freed.drivers by { FreedFrame(db, d, p, row); }
    assert !OfferedTo(freed, d) by { SameOffers(Put(db, p, row), freed, d); }
    TakeReady(db, freed, o, d, env);
    var taken := TakeOver(Readied(freed, d), o, d, !freed.drivers[d].onLine, env);
    StillAdrift(freed, taken, o, p);
    LawfulRefl(taken);
    OfferSound(taken, taken, p, {}, env, depth);
    var r := OfferToNextDriver(taken, p, {}, None, env, depth).db;
    CalmRow(taken, r, o);
    ClaimCalm(db, taken, r, o, d);
  }

  lemma FreedFrame(db: Db, d: DriverId, p: OrderId, row: Order)
    requires d in db.drivers
    ensures var freed := Put(ReleaseOffer(db, d), p, row);
      freed.orders == Put(db, p, row).orders && d in freed.drivers
  {
  }

  lemma SameOffers(db: Db, db': Db, d: DriverId)
    requires db'.orders == db.orders
    ensures OfferedTo(db', d) == OfferedTo(db, d)
  {
  }

  lemma StillAdrift(freed: Db, taken: Db, o: OrderId, p: OrderId)
    requires Adrift(freed, p) && p != o
    requires o in taken.orders && taken.orders == freed.orders[o := taken.orders[o]]
    requires taken.parked == Unpark(freed.parked, o)
    ensures Adrift(taken, p)
  {
    UnparkDoes(freed.parked, o);
  }
}
