// The cascade keeps the invariant of the protocol, touches one order only, and
// leaves every other driver's live offer in place, however deep it runs.
module CascadeInv {
  import opened Options
  import opened DispatchState
  import opened OrderTable
  import opened DriverLine
  import opened Cascade

  // An order nobody owns, that is neither offered nor parked.
  ghost predicate Adrift(db: Db, o: OrderId)
  {
    && o in db.orders
    && db.orders[o].driver.None? && db.orders[o].reserved.None? && db.orders[o].offered.None?
    && db.orders[o].slot.driver.None?
    && !Closed(db.orders[o].status)
    && !IsParked(db.parked, o)
  }

  // The columns dispatch never writes; it closes no order either.
  predicate SameRequest(a: Order, b: Order)
  {
    && (Closed(b.status) ==> Closed(a.status))
    && a.request == b.request && a.notes == b.notes
    && a.driver == b.driver && a.reserved == b.reserved
    && (a.fallback ==> b.fallback)
  }

  // Queue rows survive, and those under somebody else's live offer stand still.
  ghost predicate QueueKept(db: Db, db': Db, o: OrderId)
  {
    && (forall d :: d in db.queue ==> d in db'.queue && db'.queue[d].position == db.queue[d].position)
    && (forall a, d: DriverId :: a != o && LiveOffer(db.orders, a, d) && d in db.queue
          ==> db'.queue[d] == db.queue[d])
  }

  // Only order o, the queue and the passenger queue may have moved.
  ghost predicate Moves(db: Db, db': Db, o: OrderId)
  {
    && o in db.orders && o in db'.orders
    && db'.orders == db.orders[o := db'.orders[o]]
    && SameRequest(db.orders[o], db'.orders[o])
    && db'.nextOrder == db.nextOrder && db'.roster == db.roster && db'.drivers == db.drivers
    && db'.holds == db.holds && db'.nextHold == db.nextHold && db'.lines == db.lines
    && QueueKept(db, db', o)
  }

  lemma MovesTransitive(a: Db, b: Db, c: Db, o: OrderId)
    requires Moves(a, b, o) && Moves(b, c, o)
    ensures Moves(a, c, o)
  {
    forall x, d: DriverId | x != o && LiveOffer(a.orders, x, d) && d in a.queue
      ensures c.queue[d] == a.queue[d]
    {
      assert LiveOffer(b.orders, x, d);
    }
  }

  // The invariant and the frame together.
  ghost predicate Kept(db: Db, r: Db, o: OrderId, e: Option<DriverId>)
  {
    o in r.orders && InvDuring(r, e) && Moves(db, r, o)
  }

  lemma KeptThen(db: Db, mid: Db, r: Db, o: OrderId, e: Option<DriverId>)
    requires Moves(db, mid, o) && Kept(mid, r, o, e)
    ensures Kept(db, r, o, e)
  {
    MovesTransitive(db, mid, r, o);
  }

  lemma StaysPut(db: Db, o: OrderId)
    requires o in db.orders
    ensures Moves(db, db, o)
  {
    assert db.orders == db.orders[o := db.orders[o]];
  }

  lemma InvParts(db: Db, e: Option<DriverId>)
    requires InvDuring(db, e)
    ensures RosterOk(db) && OrdersInv(db.orders, e) && ParkedOk(db.orders, db.parked)
    ensures DistinctPositions(db.queue)
    ensures forall o :: o in db.orders ==> RowOk(db.orders[o])
    ensures forall o :: IsParked(db.parked, o) ==> o in db.orders && db.orders[o].status == Queued
  {
  }

  // ---------------------------------------------------------------- parking

  lemma {:induction false} UnparkDoes(parked: seq<Parked>, o: OrderId)
    ensures var u := Unpark(parked, o);
      && !IsParked(u, o)
      && (forall i :: 0 <= i < |u| ==> u[i] in parked)
      && (forall a :: a != o ==> (IsParked(u, a) <==> IsParked(parked, a)))
      && ((forall i, j :: 0 <= i < j < |parked| ==> parked[i].order != parked[j].order) ==>
           forall i, j :: 0 <= i < j < |u| ==> u[i].order != u[j].order)
  {
    if parked != [] {
      var rest := parked[1..];
      UnparkDoes(rest, o);
      var u, ur := Unpark(parked, o), Unpark(rest, o);
      assert forall a :: IsParked(parked, a) <==> parked[0].order == a || IsParked(rest, a) by {
        forall a ensures IsParked(parked, a) <==> parked[0].order == a || IsParked(rest, a) {
          if parked[0].order != a && IsParked(parked, a) {
            var i :| 0 <= i < |parked| && parked[i].order == a;
            assert rest[i - 1].order == a;
          }
          if IsParked(rest, a) {
            var i :| 0 <= i < |rest| && rest[i].order == a;
            assert parked[i + 1].order == a;
          }
        }
      }
      if parked[0].order != o {
        assert u == [parked[0]] + ur;
        forall a ensures IsParked(u, a) <==> parked[0].order == a || IsParked(ur, a) {
          if IsParked(ur, a) {
            var i :| 0 <= i < |ur| && ur[i].order == a;
            assert u[i + 1].order == a;
          }
          if parked[0].order == a { assert u[0].order == a; }
        }
        if forall i, j :: 0 <= i < j < |parked| ==> parked[i].order != parked[j].order {
          forall i, j | 0 <= i < j < |u| ensures u[i].order != u[j].order {
            if i == 0 {
              assert ur[j - 1] in rest;
              var k :| 0 <= k < |rest| && rest[k] == ur[j - 1];
              assert parked[k + 1] == ur[j - 1];
            }
          }
        }
      }
    }
  }

  // Entries may change their status, but not their orders.
  ghost predicate SameQueue(p: seq<Parked>, q: seq<Parked>)
  {
    |p| == |q| && forall i :: 0 <= i < |p| ==> p[i].order == q[i].order
  }

  lemma SameQueueParks(p: seq<Parked>, q: seq<Parked>)
    requires SameQueue(p, q)
    ensures forall o :: IsParked(p, o) <==> IsParked(q, o)
    ensures forall orders :: ParkedOk(orders, p) ==> ParkedOk(orders, q)
  {
    forall o ensures IsParked(p, o) <==> IsParked(q, o) {
      if IsParked(p, o) {
        var i :| 0 <= i < |p| && p[i].order == o;
        assert q[i].order == o;
      }
      if IsParked(q, o) {
        var i :| 0 <= i < |q| && q[i].order == o;
        assert p[i].order == o;
      }
    }
  }

  // ---------------------------------------------------------------- one step

  lemma RepairKeeps(db: Db, e: Option<DriverId>, o: OrderId)
    requires InvDuring(db, e) && o in db.orders
    ensures Kept(db, Repair(db), o, e)
    ensures Repair(Repair(db)) == Repair(db)
  {
    hide InvDuring, RepairAll, MaxPosition, Repairable;
    RepairKeepsInv(db, e);
    OfferedStand(db, e);
    RosterPart(db, e);
    RepairIdempotent(db);
    RepairDoes(db);
    assert db.orders == db.orders[o := db.orders[o]];
  }

  lemma RosterPart(db: Db, e: Option<DriverId>)
    requires InvDuring(db, e)
    ensures RosterOk(db) && DistinctPositions(db.queue)
  {
  }

  lemma RepairKeepsInv(db: Db, e: Option<DriverId>)
    requires InvDuring(db, e)
    ensures InvDuring(Repair(db), e)
  {
    hide OrdersInv, ParkedOk, Repair, Seated, RosterOk, DistinctPositions;
    RepairFrame(db);
    RepairDoes(db);
    OfferedStand(db, e);
    SeatedRepaired(db, Repair(db));
  }

  // The repair leaves whoever is looking at an offer where he is.
  lemma OfferedStand(db: Db, e: Option<DriverId>)
    requires InvDuring(db, e)
    ensures forall a, d: DriverId :: LiveOffer(db.orders, a, d) && d in db.queue ==>
              d in Repair(db).queue && Repair(db).queue[d] == db.queue[d]
  {
    hide OrdersInv, ParkedOk, RepairAll, Seated, MaxPosition;
    RepairDoes(db);
    forall a, d: DriverId | LiveOffer(db.orders, a, d) ensures d !in Unbound(db) {
      assert OfferedTo(db, d);
    }
  }

  lemma SeatedRepaired(db: Db, r: Db)
    requires Seated(db) && r == db.(queue := r.queue)
    requires forall a, d: DriverId :: LiveOffer(db.orders, a, d) && d in db.queue ==>
               d in r.queue && r.queue[d] == db.queue[d]
    ensures Seated(r)
  {
    forall a, d: DriverId | LiveOffer(r.orders, a, d) ensures SeatedOffer(r, a, d) {
      assert LiveOffer(db.orders, a, d);
      assert SeatedOffer(db, a, d);
    }
  }

  // An unassigned order may be written freely while it is not parked or stays
  // queued, provided any route offer on it fits.
  lemma PutKeeps(db: Db, o: OrderId, row: Order, parked: seq<Parked>, e: Option<DriverId>)
    requires InvDuring(db, e) && o in db.orders
    requires Holder(db.orders[o]).None? && Holder(row).None?
    requires SameRequest(db.orders[o], row) && RowOk(row)
    requires FitsRoute(db.orders, o, row, e)
    requires ParkedOk(db.orders[o := row], parked)
    ensures Kept(db, Put(db, o, row).(parked := parked), o, e)
  {
    hide OrdersInv, RosterOk, RowOk, FitsRoute;
    UpdateRow(db.orders, o, row, e);
    PutFrame(db, o, row, parked);
    QueueInRoster(db);
    RosterStays(db, Put(db, o, row).(parked := parked));
  }

  lemma PutFrame(db: Db, o: OrderId, row: Order, parked: seq<Parked>)
    requires o in db.orders && Holder(row).None? && SameRequest(db.orders[o], row)
    ensures var db' := Put(db, o, row).(parked := parked);
      Moves(db, db', o) && (Seated(db) ==> Seated(db'))
  {
    var db' := Put(db, o, row).(parked := parked);
    if Seated(db) {
      forall a, d: DriverId | LiveOffer(db'.orders, a, d) ensures SeatedOffer(db', a, d) {
        assert a != o && LiveOffer(db.orders, a, d);
      }
      forall a, d: DriverId | a in db'.orders && Works(db'.orders[a], d)
        ensures d in db'.drivers && db'.drivers[d].status != Online
      {
        assert a != o && Works(db.orders[a], d);
      }
    }
  }

  lemma RosterStays(db: Db, db': Db)
    requires RosterOk(db)
    requires db'.roster == db.roster && db'.drivers.Keys == db.drivers.Keys
    requires db'.queue.Keys <= db.drivers.Keys
    requires db'.nextOrder == db.nextOrder && db'.orders.Keys == db.orders.Keys
    ensures RosterOk(db')
  {
  }

  lemma QueueInRoster(db: Db)
    requires RosterOk(db)
    ensures db.queue.Keys <= db.drivers.Keys
  {
  }

  // Replacing the row of an order that is not parked leaves the parked ones in order.
  lemma ParkedElsewhere(db: Db, o: OrderId, row: Order, parked: seq<Parked>)
    requires ParkedOk(db.orders, parked)
    requires row.status == Queued || !IsParked(parked, o)
    ensures ParkedOk(db.orders[o := row], parked)
  {
    forall i | 0 <= i < |parked| ensures parked[i].order in db.orders[o := row]
        && db.orders[o := row][parked[i].order].status == Queued
    {
      if parked[i].order == o { assert IsParked(parked, o); }
    }
  }

  lemma ParkedSame(db: Db, o: OrderId, row: Order)
    requires ParkedOk(db.orders, db.parked) && o in db.orders && row.status == db.orders[o].status
    ensures ParkedOk(db.orders[o := row], db.parked)
  {
  }

  lemma SetStatusKeeps(db: Db, o: OrderId, s: Status, e: Option<DriverId>)
    requires InvDuring(db, e) && Adrift(db, o)
    requires s in {NoDrivers, ChatSearch, Searching, Created, Queued}
    ensures Kept(db, SetStatus(db, o, s), o, e)
    ensures Adrift(SetStatus(db, o, s), o)
  {
    hide OrdersInv, InvDuring, Moves, RosterOk, ParkedOk, DistinctPositions;
    InvParts(db, e);
    assert RowOk(db.orders[o]);
    var row := db.orders[o].(status := s);
    ParkedElsewhere(db, o, row, db.parked);
    PutKeeps(db, o, row, db.parked, e);
    assert SetStatus(db, o, s) == Put(db, o, row).(parked := db.parked);
  }

  lemma EnqueueKeeps(db: Db, o: OrderId, e: Option<DriverId>)
    requires InvDuring(db, e) && Adrift(db, o)
    ensures Kept(db, Enqueue(db, o), o, e)
    ensures IsParked(Enqueue(db, o).parked, o)
    ensures Enqueue(db, o).orders[o] == db.orders[o].(status := Queued)
  {
    hide OrdersInv, RosterOk, DistinctPositions, Seated, RowOk, FitsRoute;
    InvParts(db, e);
    var row := db.orders[o].(status := Queued);
    var parked := db.parked + [Parked(o, ParkWaiting)];
    assert parked[|db.parked|].order == o;
    AdriftRow(db.orders[o], row);
    ParkedElsewhere(db, o, row, db.parked);
    assert ParkedOk(db.orders[o := row], parked) by {
      forall i | 0 <= i < |db.parked| ensures db.parked[i].order != o {
        assert !IsParked(db.parked, o);
      }
    }
    PutKeeps(db, o, row, parked, e);
  }

  lemma AdriftRow(row: Order, queued: Order)
    requires RowOk(row) && row.driver.None? && row.reserved.None? && row.offered.None? && row.slot.driver.None?
    requires !Closed(row.status) && queued == row.(status := Queued)
    ensures RowOk(queued) && Holder(queued).None? && Holder(row).None? && queued.slot == NO_ROUTE_OFFER
    ensures SameRequest(row, queued)
    ensures forall orders: Orders, o: OrderId, e: Option<DriverId> :: FitsRoute(orders, o, queued, e)
  {
  }

  lemma ParkingKeeps(db: Db, o: OrderId, e: Option<DriverId>)
    requires InvDuring(db, e) && o in db.orders
    requires Candidate(db.orders[o].status) && db.orders[o].driver.None? && db.orders[o].reserved.None?
    ensures Kept(db, Parking(db, o), o, e)
    ensures IsParked(Parking(db, o).parked, o)
    ensures Parking(db, o).orders[o] == ClearRoute(db.orders[o]).(etaChosen := false, status := Queued)
  {
    hide OrdersInv, InvDuring, Moves, ParkedOk, Enqueue, SetPark;
    InvParts(db, e);
    var row := ClearRoute(db.orders[o]).(driver := None, reserved := None, etaChosen := false, status := Queued);
    ParkedElsewhere(db, o, row, db.parked);
    PutKeeps(db, o, row, db.parked, e);
    var mid := Put(db, o, row).(parked := db.parked);
    assert mid == Put(db, o, row);
    EnqueueAnyKeeps(mid, o, e);
    var q := Enqueue(mid, o);
    KeptThen(db, mid, q, o, e);
    SetParkKeeps(q, o, ParkWaiting, e);
    assert Parking(db, o) == q.(parked := SetPark(q.parked, o, ParkWaiting));
    KeptThen(db, q, Parking(db, o), o, e);
  }

  lemma EnqueueAnyKeeps(db: Db, o: OrderId, e: Option<DriverId>)
    requires InvDuring(db, e) && o in db.orders && db.orders[o].status == Queued
    requires db.orders[o].slot.driver.None?
    requires db.orders[o].driver.None? && db.orders[o].reserved.None? && db.orders[o].offered.None?
    ensures Kept(db, Enqueue(db, o), o, e)
    ensures Enqueue(db, o).orders[o] == db.orders[o]
    ensures IsParked(Enqueue(db, o).parked, o)
  {
    if IsParked(db.parked, o) {
      StaysPut(db, o);
    } else {
      EnqueueKeeps(db, o, e);
    }
  }

  lemma SetParkKeeps(db: Db, o: OrderId, s: ParkStatus, e: Option<DriverId>)
    requires InvDuring(db, e) && o in db.orders
    ensures Kept(db, db.(parked := SetPark(db.parked, o, s)), o, e)
    ensures forall a :: IsParked(SetPark(db.parked, o, s), a) <==> IsParked(db.parked, a)
  {
    hide OrdersInv, RosterOk, DistinctPositions, ParkedOk;
    SameQueueParks(db.parked, SetPark(db.parked, o, s));
    StaysPut(db, o);
    RosterStays(db, db.(parked := SetPark(db.parked, o, s))) by { QueueInRoster(db); }
  }

  lemma UnparkedKeeps(db: Db, o: OrderId, e: Option<DriverId>)
    requires InvDuring(db, e) && o in db.orders && db.orders[o].status == Queued
    ensures Kept(db, Unparked(db, o), o, e)
    ensures Adrift(Unparked(db, o), o)
    ensures Unparked(db, o).orders[o] == ClearRoute(db.orders[o]).(status := Searching)
  {
    hide OrdersInv, InvDuring, Moves, ParkedOk, RosterOk, DistinctPositions;
    InvParts(db, e);
    assert RowOk(db.orders[o]);
    var row := ClearRoute(db.orders[o]).(status := Searching);
    var parked := Unpark(db.parked, o);
    UnparkLeavesOk(db, o, row);
    PutKeeps(db, o, row, parked, e);
  }

  // Whatever the row becomes, the passenger queue without it is in order.
  lemma UnparkLeavesOk(db: Db, o: OrderId, row: Order)
    requires ParkedOk(db.orders, db.parked)
    ensures !IsParked(Unpark(db.parked, o), o)
    ensures ParkedOk(db.orders[o := row], Unpark(db.parked, o))
  {
    var u := Unpark(db.parked, o);
    UnparkDoes(db.parked, o);
    forall i | 0 <= i < |u| ensures u[i].order in db.orders && u[i].order != o
        && db.orders[u[i].order].status == Queued
    {
      assert IsParked(u, u[i].order);
      assert u[i] in db.parked;
    }
  }

  lemma NotifyKeeps(db: Db, o: OrderId, env: Env, e: Option<DriverId>)
    requires InvDuring(db, e) && o in db.orders
    requires Candidate(db.orders[o].status)
    ensures var n := NotifyBusyDrivers(db, o, env);
      && Kept(db, n.db, o, e) && n.db.orders[o].status == db.orders[o].status
      && (IsParked(db.parked, o) ==> IsParked(n.db.parked, o))
      && n.db.orders[o].fallback == db.orders[o].fallback
  {
    hide OrdersInv, InvDuring, Moves, Repair, PlaceRouteOffer, HasWaiting, TripEligible;
    InvParts(db, e);
    RepairKeeps(db, e, o);
    StaysPut(db, o);
    var row := db.orders[o];
    var q := AfterPriority(db, o);
    RepairFrame(db);
    if !(row.slot.driver.Some? && row.slot.trip.Some?) && !FreeDriverHasPriority(db, o)
       && RouteCity(row).Some? && !row.fallback
    {
      var trip := ClaimTrip(q.orders, o, q.nextOrder);
      if trip.Some? && o in env.cards {
        PlaceRouteOfferKeeps(q, o, trip.value, env.cards[o], e);
        KeptThen(db, q, PlaceRouteOffer(q, o, trip.value, env.cards[o]), o, e);
      }
    }
  }

  lemma RepairFrame(db: Db)
    ensures Repair(db) == db.(queue := Repair(db).queue)
  {
  }

  lemma PlaceRouteOfferKeeps(db: Db, o: OrderId, trip: OrderId, card: CardId, e: Option<DriverId>)
    requires InvDuring(db, e) && o in db.orders && Candidate(db.orders[o].status)
    requires db.orders[o].slot.driver.None? && !db.orders[o].fallback
    requires TripEligible(db.orders, trip, o)
    ensures Kept(db, PlaceRouteOffer(db, o, trip, card), o, e)
    ensures PlaceRouteOffer(db, o, trip, card).parked == db.parked
    ensures PlaceRouteOffer(db, o, trip, card).orders[o].status == db.orders[o].status
    ensures !PlaceRouteOffer(db, o, trip, card).orders[o].fallback
  {
    hide OrdersInv, InvDuring, Moves;
    InvParts(db, e);
    var d := db.orders[trip].driver.value;
    var row := db.orders[o].(slot := RouteOffer(Some(d), Some(trip), Some(card), Some((d, card))));
    assert FitsRoute(db.orders, o, row, e) by {
      forall a | a in db.orders && a != o ensures db.orders[a].slot.driver != Some(d) {
        assert !RouteOfferedElsewhere(db.orders, d, o);
      }
    }
    ParkedSame(db, o, row);
    PutKeeps(db, o, row, db.parked, e);
    assert PlaceRouteOffer(db, o, trip, card) == Put(db, o, row).(parked := db.parked);
  }

  lemma PlaceOfferKeeps(db: Db, o: OrderId, d: DriverId, line: Line, excluded: set<DriverId>,
                        env: Env, e: Option<DriverId>)
    requires InvDuring(db, e) && Adrift(db, o)
    requires Eligible(db, line, excluded, d)
    requires line == StageLine(db.orders[o])
    ensures Kept(db, PlaceOffer(db, o, d, env), o, e)
  {
    OfferFreeDriver(db, o, d, env, e);
  }

  // Offering to an uncommitted driver, on the stage line or at the passenger's wish.
  lemma OfferFreeDriver(db: Db, o: OrderId, d: DriverId, env: Env, e: Option<DriverId>)
    requires InvDuring(db, e) && Adrift(db, o)
    requires d in db.queue && d in db.drivers && db.drivers[d].status == Online
    requires FreeBut(db.orders, d, o)
    requires db.queue[d].line == Some(StageLine(db.orders[o])) || db.orders[o].request.requested == Some(d)
    ensures Kept(db, PlaceOffer(db, o, d, env), o, e)
  {
    hide OrdersInv, RosterOk, ParkedOk, Seated, Moves, FreeBut;
    var row := ClearRoute(db.orders[o]).(
      status := Searching, offered := Some(d), offerCard := o in env.cards);
    var db' := PlaceOffer(db, o, d, env);
    InvParts(db, e);
    FreeFits(db.orders, o, row, d);
    UpdateRow(db.orders, o, row, e);
    assert db'.orders == db.orders[o := row];
    SameQueueParks(db.parked, db'.parked);
    ParkedElsewhere(db, o, row, db'.parked);
    OfferFrame(db, o, d, env);
    QueueInRoster(db);
    RosterStays(db, db');
  }

  lemma OfferFrame(db: Db, o: OrderId, d: DriverId, env: Env)
    requires o in db.orders && d in db.queue && d in db.drivers && db.drivers[d].status == Online
    requires FreeBut(db.orders, d, o)
    requires db.queue[d].line == Some(StageLine(db.orders[o])) || db.orders[o].request.requested == Some(d)
    requires Offerable(db.orders[o])
    ensures var db' := PlaceOffer(db, o, d, env);
      && Moves(db, db', o)
      && (Seated(db) ==> Seated(db'))
  {
    var db' := PlaceOffer(db, o, d, env);
    if Seated(db) { OfferSeats(db, o, d, env); }
  }

  lemma OfferSeats(db: Db, o: OrderId, d: DriverId, env: Env)
    requires o in db.orders && d in db.queue && d in db.drivers && db.drivers[d].status == Online
    requires db.queue[d].line == Some(StageLine(db.orders[o])) || db.orders[o].request.requested == Some(d)
    requires Seated(db) && (forall a: OrderId :: a != o ==> !LiveOffer(db.orders, a, d))
    ensures Seated(PlaceOffer(db, o, d, env))
  {
    var db' := PlaceOffer(db, o, d, env);
    forall a, x: DriverId | LiveOffer(db'.orders, a, x) ensures SeatedOffer(db', a, x) {
      if a != o {
        assert LiveOffer(db.orders, a, x);
        assert SeatedOffer(db, a, x);
      }
    }
    forall a, x: DriverId | a in db'.orders && Works(db'.orders[a], x)
      ensures x in db'.drivers && db'.drivers[x].status != Online
    {
      assert a != o && Works(db.orders[a], x);
    }
  }

  // ---------------------------------------------------------------- whole cascade

  lemma {:induction false} OfferKeeps(db: Db, o: OrderId, skip: set<DriverId>, line: Option<Line>,
                                      env: Env, depth: nat, e: Option<DriverId>)
    requires InvDuring(db, e) && Adrift(db, o)
    requires line.Some? ==> line.value == StageLine(db.orders[o])
    ensures Kept(db, OfferToNextDriver(db, o, skip, line, env, depth).db, o, e)
    decreases depth, 0
  {
    hide OrdersInv, InvDuring, Moves, Repair, PlaceOffer, Eligible, Pick, HandleNoDriver;
    hide RosterOk, ParkedOk, DistinctPositions, RowOk;
    StaysPut(db, o);
    if depth > 0 && Offerable(db.orders[o]) {
      var row := db.orders[o];
      var target := if line.Some? then line.value else StageLine(row);
      var excluded := row.notes.declined + skip;
      var mid := Repair(db);
      RepairKeeps(db, e, o);
      RepairFrame(db);
      InvParts(mid, e);
      PickIsFirst(mid, target, excluded);
      var d := Pick(mid, target, excluded);
      if d.Some? {
        PlaceOfferKeeps(mid, o, d.value, target, excluded, env, e);
        KeptThen(db, mid, PlaceOffer(mid, o, d.value, env), o, e);
      } else {
        HandleKeeps(mid, o, env, depth - 1, e);
        KeptThen(db, mid, HandleNoDriver(mid, o, env, depth - 1).db, o, e);
      }
    }
  }

  lemma {:induction false} HandleKeeps(db: Db, o: OrderId, env: Env, depth: nat, e: Option<DriverId>)
    requires InvDuring(db, e) && Adrift(db, o)
    ensures Kept(db, HandleNoDriver(db, o, env, depth).db, o, e)
    decreases depth, 4
  {
    hide OrdersInv, InvDuring, Moves, Repair, OfferToNextDriver, ParkAndNotify, HasEligible, StageLine;
    var row := db.orders[o];
    var mid := Repair(db);
    RepairKeeps(db, e, o);
    RepairFrame(db);
    if HasEligible(db, o) {
      OfferKeeps(mid, o, {}, None, env, depth, e);
      KeptThen(db, mid, OfferToNextDriver(mid, o, {}, None, env, depth).db, o, e);
    } else {
      var none := SetStatus(mid, o, NoDrivers);
      SetStatusKeeps(mid, o, NoDrivers, e);
      KeptThen(db, mid, none, o, e);
      if !row.request.byDispatcher && (row.request.delivery || row.notes.chatReason) {
        SetStatusKeeps(none, o, ChatSearch, e);
        KeptThen(db, none, SetStatus(none, o, ChatSearch), o, e);
      } else {
        var q := Enqueue(none, o);
        EnqueueKeeps(none, o, e);
        KeptThen(db, none, q, o, e);
        ParkAndNotifyKeeps(q, o, env, depth, e);
        KeptThen(db, q, ParkAndNotify(q, o, env, depth).db, o, e);
      }
    }
  }

  lemma {:induction false} ParkAndNotifyKeeps(db: Db, o: OrderId, env: Env, depth: nat, e: Option<DriverId>)
    requires InvDuring(db, e) && o in db.orders && db.orders[o].status == Queued
    ensures Kept(db, ParkAndNotify(db, o, env, depth).db, o, e)
    decreases depth, 3
  {
    hide OrdersInv, InvDuring, Moves, Fallback, NotifyBusyDrivers;
    var n := NotifyBusyDrivers(db, o, env);
    NotifyKeeps(db, o, env, e);
    if RouteCity(db.orders[o]).Some? && !n.created {
      FallbackKeeps(n.db, o, true, env, depth, e);
      KeptThen(db, n.db, Fallback(n.db, o, true, env, depth).db, o, e);
    }
  }

  lemma {:induction false} FallbackKeeps(db: Db, o: OrderId, recheckVillage: bool, env: Env, depth: nat,
                                         e: Option<DriverId>)
    requires InvDuring(db, e) && o in db.orders
    ensures Kept(db, Fallback(db, o, recheckVillage, env, depth).db, o, e)
    decreases depth, 2
  {
    hide OrdersInv, InvDuring, Moves, Repair, OfferToNextDriver, EnterFallback, HasWaiting, Parking, Unparked;
    var row := db.orders[o];
    StaysPut(db, o);
    if Candidate(row.status) && row.driver.None? && row.reserved.None? {
      var p := Parking(db, o);
      ParkingKeeps(db, o, e);
      var city := RouteCity(row);
      if recheckVillage && city.Some? && !row.fallback {
        if HasWaiting(p, VillageLine(city.value), {}) {
          UnparkThenOffer(db, p, o, VillageLine(city.value), env, depth, e);
        } else {
          RepairKeeps(p, e, o);
          RepairFrame(p);
          KeptThen(db, p, Repair(p), o, e);
          EnterFallbackKeeps(Repair(p), o, env, depth, e);
          KeptThen(db, Repair(p), EnterFallback(Repair(p), o, env, depth).db, o, e);
        }
      } else {
        EnterFallbackKeeps(p, o, env, depth, e);
        KeptThen(db, p, EnterFallback(p, o, env, depth).db, o, e);
      }
    }
  }

  lemma {:induction false} EnterFallbackKeeps(db: Db, o: OrderId, env: Env, depth: nat, e: Option<DriverId>)
    requires InvDuring(db, e) && o in db.orders
    requires db.orders[o].status == Queued && db.orders[o].slot.driver.None?
    ensures Kept(db, EnterFallback(db, o, env, depth).db, o, e)
    decreases depth, 1, 1
  {
    hide OrdersInv, InvDuring, Moves, Repair, OfferToNextDriver, HasWaiting, Unparked;
    var row := db.orders[o].(fallback := true);
    var f := Put(db, o, row);
    InvParts(db, e);
    ParkedElsewhere(db, o, row, db.parked);
    PutKeeps(db, o, row, db.parked, e);
    assert f == Put(db, o, row).(parked := db.parked);
    if HasWaiting(f, Gorno, {}) {
      UnparkThenOffer(db, f, o, Gorno, env, depth, e);
    } else {
      RepairKeeps(f, e, o);
      KeptThen(db, f, Repair(f), o, e);
    }
  }

  // The common tail of the fallback: leave the passenger queue for one line.
  lemma {:induction false} UnparkThenOffer(db: Db, p: Db, o: OrderId, line: Line, env: Env, depth: nat,
                                           e: Option<DriverId>)
    requires Kept(db, p, o, e) && o in p.orders && p.orders[o].status == Queued
    requires line == StageLine(p.orders[o])
    ensures Kept(db, OfferToNextDriver(Unparked(Repair(p), o), o, {}, Some(line), env, depth).db, o, e)
    decreases depth, 1, 0
  {
    hide OrdersInv, InvDuring, Moves, Repair, OfferToNextDriver, Unparked;
    var r := Repair(p);
    RepairKeeps(p, e, o);
    RepairFrame(p);
    KeptThen(db, p, r, o, e);
    var u := Unparked(r, o);
    UnparkedKeeps(r, o, e);
    KeptThen(db, r, u, o, e);
    OfferKeeps(u, o, {}, Some(line), env, depth, e);
    KeptThen(db, u, OfferToNextDriver(u, o, {}, Some(line), env, depth).db, o, e);
  }
}
