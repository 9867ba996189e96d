// Whom the cascade asks: the one driver, computed from the state before it runs,
// and what becomes of an order nobody can be asked about.
module Asking {
  import opened Options
  import opened DispatchState
  import opened OrderTable
  import opened DriverLine
  import opened Cascade
  import opened CascadeInv
  import opened CascadeDepth
  import opened Frames
  import opened PassengerQueue

  // An order that goes to the requests chat instead of the passenger queue.
  predicate ForChat(row: Order)
  {
    !row.request.byDispatcher && (row.request.delivery || row.notes.chatReason)
  }

  // A village order that finds its line empty and no card to send, and somebody
  // willing in Gornozavodsk.
  predicate LastResort(db: Db, o: OrderId, env: Env)
    requires o in db.orders
  {
    && RouteCity(db.orders[o]).Some? && !ForChat(db.orders[o]) && !db.orders[o].fallback
    && !Staffed(db, StageLine(db.orders[o])) && !RouteOfferPossible(db, o, env) && Willing(db, o, Gorno)
  }

  // The driver whom the cascade will ask, if there is one.
  function FirstAsked(db: Db, o: OrderId, env: Env): Option<DriverId>
    requires o in db.orders
  {
    var declined := db.orders[o].notes.declined;
    if Willing(db, o, StageLine(db.orders[o])) then Pick(Repair(db), StageLine(db.orders[o]), declined)
    else if LastResort(db, o, env) then Pick(Repair(db), Gorno, declined)
    else None
  }

  // Nobody will be asked about a parked order: no driver in reach, and no stage left
  // but, perhaps, the card it has.
  predicate Quiet(db: Db, o: OrderId)
  {
    o in db.orders && db.orders[o].offered.None?
    && (IsParked(db.parked, o) ==>
          && !DriverInReach(db, o)
          && (RouteCity(db.orders[o]).None? || db.orders[o].fallback
              || (db.orders[o].slot.driver.Some? && db.orders[o].slot.trip.Some?)))
  }

  // How an order stands before the driver asked: only the offer itself and, if it has
  // come so far, the fallback are new.
  predicate Stands(db: Db, r: Db, o: OrderId, d: DriverId, env: Env)
    requires o in db.orders
  {
    o in r.orders
    && var row, left := db.orders[o], r.orders[o];
    && left == row.(status := Searching, offered := Some(d), offerCard := o in env.cards,
                    etaChosen := left.etaChosen, fallback := left.fallback)
    && (row.fallback ==> left.fallback)
    && r.parked == PausePrompts(db.parked, Some(o))
  }

  // What an order nobody is asked about is left as: with the requests chat, with
  // nobody, or at the end of the passenger queue.
  predicate Rests(db: Db, r: Db, o: OrderId, env: Env)
    requires o in db.orders
  {
    o in r.orders
    && var row, left := db.orders[o], r.orders[o];
    if !row.request.byDispatcher && (row.request.delivery || row.notes.chatReason) then
      && left == row.(status := if env.chatConfigured && env.chatAccepts then ChatSearch else NoDrivers)
      && r.parked == db.parked
    else
      && left.status == Queued && r.parked == db.parked + [Parked(o, ParkWaiting)]
      && (RouteCity(row).None? ==> left == row.(status := Queued))
      && (RouteCity(row).Some? ==>
            left == if left.slot.driver.Some? then row.(status := Queued, slot := left.slot)
                    else row.(status := Queued, etaChosen := false, fallback := true))
  }

  // ---------------------------------------------------------------- who waits

  // Wherever somebody waits in the second state, somebody waited in the first.
  ghost predicate FewerWait(db: Db, db': Db)
  {
    forall line, excluded :: HasWaiting(db', line, excluded) ==> HasWaiting(db, line, excluded)
  }

  lemma FewerThen(a: Db, b: Db, c: Db)
    requires FewerWait(a, b) && FewerWait(b, c)
    ensures FewerWait(a, c)
  {
    hide HasWaiting;
  }

  // A ride or a reservation of the driver.
  predicate Committed(orders: Orders, d: DriverId)
  {
    || (exists o :: o in orders && orders[o].driver == Some(d)
          && (Riding(orders[o].status) || orders[o].status == ParallelAssigned))
    || (exists o :: o in orders && orders[o].reserved == Some(d) && orders[o].status == ParallelAssigned)
  }

  // The driver is the same to every probe.
  ghost predicate SameDriver(db: Db, db': Db, d: DriverId)
  {
    && (d in db.drivers <==> d in db'.drivers) && (d in db.drivers ==> db'.drivers[d] == db.drivers[d])
    && (d in db.queue <==> d in db'.queue) && (d in db.queue ==> db'.queue[d] == db.queue[d])
    && db'.holds == db.holds && OfferedTo(db', d) == OfferedTo(db, d)
    && Committed(db'.orders, d) == Committed(db.orders, d)
  }

  // If everybody but those off the line or looking at an offer is as before, fewer
  // wait.
  lemma SameOrBusy(db: Db, db': Db)
    requires RosterOk(db) && DistinctPositions(db.queue) && RosterOk(db') && DistinctPositions(db'.queue)
    requires db'.lines == db.lines
    requires forall d: DriverId :: d in db'.drivers && db'.drivers[d].status == Online && !OfferedTo(db', d) ==>
               SameDriver(db, db', d)
    ensures FewerWait(db, db')
  {
    hide RosterOk, DistinctPositions, Engaged, Repair, SameDriver;
    RepairDoes(db);
    RepairDoes(db');
    RepairFrame(db);
    RepairFrame(db');
    forall line, excluded | HasWaiting(db', line, excluded) ensures HasWaiting(db, line, excluded) {
      PickIsFirst(Repair(db'), line, excluded);
      PickIsFirst(Repair(db), line, excluded);
      var d :| Eligible(Repair(db'), line, excluded, d);
      StillEligible(db, db', line, excluded, d);
    }
  }

  lemma StillEligible(db: Db, db': Db, line: Line, excluded: set<DriverId>, d: DriverId)
    requires Repaired(db, Unbound(db), Repair(db).queue) && Repaired(db', Unbound(db'), Repair(db').queue)
    requires Repair(db) == db.(queue := Repair(db).queue) && Repair(db') == db'.(queue := Repair(db').queue)
    requires db'.lines == db.lines && Eligible(Repair(db'), line, excluded, d)
    requires d in db'.drivers && db'.drivers[d].status == Online && !OfferedTo(db', d) ==> SameDriver(db, db', d)
    ensures Eligible(Repair(db), line, excluded, d)
  {
    hide Repair, SameDriver, Repaired;
    assert OfferedTo(Repair(db'), d) == OfferedTo(db', d);
    SameRepair(db, db', d);
    CommittedIs(db, d);
    CommittedIs(db', d);
    SameFlags(db, db', d);
  }

  lemma SameFlags(db: Db, db': Db, d: DriverId)
    requires SameDriver(db, db', d)
    ensures (d in db.drivers <==> d in db'.drivers) && (d in db.drivers ==> db'.drivers[d] == db.drivers[d])
    ensures OfferedTo(db', d) == OfferedTo(db, d) && Committed(db'.orders, d) == Committed(db.orders, d)
  {
  }

  lemma CommittedIs(db: Db, d: DriverId)
    requires Repair(db) == db.(queue := Repair(db).queue)
    ensures OfferedTo(Repair(db), d) == OfferedTo(db, d) && Committed(Repair(db).orders, d) == Committed(db.orders, d)
  {
  }

  // The repair treats him alike.
  lemma SameRepair(db: Db, db': Db, d: DriverId)
    requires Repaired(db, Unbound(db), Repair(db).queue) && Repaired(db', Unbound(db'), Repair(db').queue)
    requires db'.lines == db.lines && SameDriver(db, db', d)
    ensures var q, r := Repair(db).queue, Repair(db').queue;
      (d in q <==> d in r) && (d in q ==> q[d].status == r[d].status && q[d].line == r[d].line)
  {
    hide Repair;
    assert d in Unbound(db') <==> d in Unbound(db);
  }

  // ---------------------------------------------------------------- one cascade

  lemma WillingAsks(db: Db, o: OrderId, line: Option<Line>, env: Env, depth: nat)
    requires Ready(db, o) && Willing(db, o, if line.Some? then line.value else StageLine(db.orders[o])) && depth >= 1
    ensures var target := if line.Some? then line.value else StageLine(db.orders[o]);
      var r := OfferToNextDriver(db, o, {}, line, env, depth);
      && r.Done? && r.offered && o in r.db.orders && Pick(Repair(db), target, db.orders[o].notes.declined).Some?
      && r.db.orders[o].status == Searching
      && r.db.orders[o].offered == Pick(Repair(db), target, db.orders[o].notes.declined)
      && r.db.orders[o].slot == NO_ROUTE_OFFER && Stands(db, r.db, o, r.db.orders[o].offered.value, env)
  {
    hide Repair, Pick, HandleNoDriver, RosterOk, DistinctPositions, Eligible, StageLine;
    ReadyParts(db, o);
    RepairFrame(db);
    var mid := Repair(db);
    var target := if line.Some? then line.value else StageLine(db.orders[o]);
    assert RosterOk(mid) by { RepairDoes(db); }
    PickIsFirst(mid, target, db.orders[o].notes.declined);
    InQueue(mid, target, db.orders[o].notes.declined, Pick(mid, target, db.orders[o].notes.declined).value);
    assert db.orders[o].notes.declined + {} == db.orders[o].notes.declined;
  }

  lemma InQueue(db: Db, line: Line, excluded: set<DriverId>, d: DriverId)
    requires Eligible(db, line, excluded, d)
    ensures d in db.queue
  {
  }

  // What the cascade makes of an order, exactly: it stands before the driver to be
  // asked, or nobody is to be asked and the order is quiet.
  lemma CascadeAsks(db: Db, o: OrderId, line: Option<Line>, env: Env, depth: nat)
    requires Ready(db, o) && depth >= 2 && (line.Some? ==> line.value == StageLine(db.orders[o]))
    ensures var r := OfferToNextDriver(db, o, {}, line, env, depth); var asked := FirstAsked(db, o, env);
      && o in r.db.orders && r.db.orders[o].offered == asked
      && (asked.Some? ==> r.Done? && r.db.orders[o].status == Searching && Stands(db, r.db, o, asked.value, env))
      && (asked.None? && r.Done? ==> Quiet(r.db, o) && Rests(db, r.db, o, env))
  {
    hide OfferToNextDriver, HandleNoDriver, ParkAndNotify, Repair, HasWaiting, Ready;
    hide ClaimTrip, Pick, Quiet, Rests, Stands;
    ReadyParts(db, o);
    var row := db.orders[o];
    if Willing(db, o, StageLine(row)) {
      WillingAsks(db, o, line, env, depth);
    } else if Stuck(db, o, env) {
      StuckNeverEnds(db, o, {}, line, env, depth);
      SearchFormAlike(db, o, NextFlag(db, o));
    } else {
      OfferSkips(db, o, {}, line, env, depth);
      if ForChat(row) {
        ChatQuiet(db, o, env, depth - 1);
        QuietRow(HandleNoDriver(Repair(db), o, env, depth - 1).db, o);
      } else {
        HandleParks(db, o, env, depth - 1);
        var p := ParkedForm(db, o, row);
        if RouteCity(row).None? {
          OrdinaryQuiet(db, o, env, depth - 1);
          QuietRow(ParkAndNotify(p, o, env, depth - 1).db, o);
        } else if !row.fallback && RouteOfferPossible(db, o, env) {
          CardQuiet(db, o, env, depth - 1);
          QuietRow(ParkAndNotify(p, o, env, depth - 1).db, o);
        } else {
          NobodyNotified(db, o, env, depth - 1);
          FallbackAsks(db, o, env, depth - 1);
        }
      }
    }
  }

  lemma QuietRow(db: Db, o: OrderId)
    requires Quiet(db, o)
    ensures o in db.orders && db.orders[o].offered.None?
  {
  }

  lemma ChatQuiet(db: Db, o: OrderId, env: Env, depth: nat)
    requires Ready(db, o) && !Willing(db, o, StageLine(db.orders[o])) && ForChat(db.orders[o])
    ensures var h := HandleNoDriver(Repair(db), o, env, depth);
      h.Done? && Quiet(h.db, o) && Rests(db, h.db, o, env)
  {
    hide Repair, HasWaiting, Ready, DriverInReach;
    ReadyParts(db, o);
    RepairFrame(db);
    RepairIdempotent(db);
    FormsAlike(db, o, db.orders[o], db.parked);
    assert Put(Repair(db), o, db.orders[o]).(parked := db.parked) == Repair(db) by {
      assert db.orders[o := db.orders[o]] == db.orders;
    }
  }

  lemma OrdinaryQuiet(db: Db, o: OrderId, env: Env, depth: nat)
    requires Ready(db, o) && RouteCity(db.orders[o]).None? && !Willing(db, o, StageLine(db.orders[o]))
    requires !ForChat(db.orders[o])
    ensures var h := ParkAndNotify(ParkedForm(db, o, db.orders[o]), o, env, depth);
      h.Done? && Quiet(h.db, o) && Rests(db, h.db, o, env)
  {
    hide Repair, HasWaiting, Ready, Fallback, ParkedForm, ClaimTrip;
    ReadyParts(db, o);
    ParkedFormRow(db, o, db.orders[o]);
    ParkedFormAlike(db, o, db.orders[o]);
    assert ParkAndNotify(ParkedForm(db, o, db.orders[o]), o, env, depth).db == ParkedForm(db, o, db.orders[o]);
  }

  lemma CardQuiet(db: Db, o: OrderId, env: Env, depth: nat)
    requires Ready(db, o) && RouteCity(db.orders[o]).Some? && !db.orders[o].fallback
    requires !Staffed(db, StageLine(db.orders[o])) && RouteOfferPossible(db, o, env) && !ForChat(db.orders[o])
    ensures var h := ParkAndNotify(ParkedForm(db, o, db.orders[o]), o, env, depth);
      h.Done? && Quiet(h.db, o) && Rests(db, h.db, o, env)
  {
    hide Repair, HasWaiting, Ready, Fallback, ParkedForm, ClaimTrip, RosterOk, DistinctPositions;
    ReadyParts(db, o);
    var row := db.orders[o];
    ParkedFormRow(db, o, row);
    ParkedFormAlike(db, o, row);
    var p := ParkedForm(db, o, row);
    var r := ParkAndNotify(p, o, env, depth).db;
    var trip := ClaimTrip(p.orders, o, p.nextOrder).value;
    assert r == PlaceRouteOffer(p, o, trip, env.cards[o]);
    PlacedForm(db, o, row, r);
    ParkedFormRow(db, o, r.orders[o]);
    ParkedFormAlike(db, o, r.orders[o]);
    assert Rests(db, r, o, env) by { hide Quiet; }
  }

  // Another slot is another row in the same form.
  lemma PlacedForm(db: Db, o: OrderId, row: Order, r: Db)
    requires o in r.orders && r.orders[o].status == Queued
    requires r == Put(ParkedForm(db, o, row), o, r.orders[o])
    ensures r == ParkedForm(db, o, r.orders[o])
  {
    hide Repair;
    var p := ParkedForm(db, o, row);
    assert p.orders[o := r.orders[o]] == Repair(db).orders[o := r.orders[o]];
  }

  lemma FallbackAsks(db: Db, o: OrderId, env: Env, depth: nat)
    requires Ready(db, o) && RouteCity(db.orders[o]).Some? && !ForChat(db.orders[o]) && !Stuck(db, o, env) && depth >= 1
    requires !Willing(db, o, StageLine(db.orders[o]))
    requires db.orders[o].fallback || !RouteOfferPossible(db, o, env)
    ensures var h := Fallback(ParkedForm(db, o, db.orders[o]), o, true, env, depth);
      var asked := FirstAsked(db, o, env);
      && h.Done? && o in h.db.orders && h.db.orders[o].offered == asked
      && (asked.Some? ==> h.db.orders[o].status == Searching && Stands(db, h.db, o, asked.value, env))
      && (asked.None? ==> Quiet(h.db, o) && Rests(db, h.db, o, env))
  {
    hide OfferToNextDriver, Repair, HasWaiting, Parking, Unparked;
    hide EnterFallback, RosterOk, DistinctPositions, Pick, RouteOfferPossible;
    hide ParkedForm, Ready, IsParked, Quiet, Rests, Stands;
    ReadyParts(db, o);
    var row := db.orders[o];
    ParkedFormRow(db, o, row);
    ParkingRests(db, o, row);
    ParkedFormRow(db, o, row.(etaChosen := false));
    ParkedFormAlike(db, o, row.(etaChosen := false));
    if Staffed(db, Gorno) {
      EntersFallback(db, o, env, depth);
      GornoAsks(db, o, env, depth);
    } else {
      GornoEmpty(db, o, env, depth);
      GornoQuiet(db, o, env, depth);
      QuietRow(EnterFallback(ParkedForm(db, o, row.(etaChosen := false)), o, env, depth).db, o);
      NotStaffedNotWilling(db, o, Gorno);
    }
  }

  lemma NotStaffedNotWilling(db: Db, o: OrderId, line: Line)
    requires Ready(db, o) && !Staffed(db, line)
    ensures !Willing(db, o, line)
  {
    hide Repair, Eligible, DistinctPositions;
    ReadyParts(db, o);
    var mid := Repair(db);
    assert RosterOk(mid) by { RepairDoes(db); }
    PickIsFirst(mid, line, {});
    PickIsFirst(mid, line, db.orders[o].notes.declined);
    if Willing(db, o, line) {
      var d :| Eligible(mid, line, db.orders[o].notes.declined, d);
      FewerExcluded(mid, line, {}, db.orders[o].notes.declined, d) by {
        assert {} + db.orders[o].notes.declined == db.orders[o].notes.declined;
      }
    }
  }

  lemma GornoAsks(db: Db, o: OrderId, env: Env, depth: nat)
    requires Ready(db, o) && Willing(db, o, Gorno) && depth >= 1
    ensures var h := OfferToNextDriver(SearchForm(db, o, true), o, {}, Some(Gorno), env, depth);
      && h.Done? && o in h.db.orders && h.db.orders[o].status == Searching
      && h.db.orders[o].offered == Pick(Repair(db), Gorno, db.orders[o].notes.declined)
      && h.db.orders[o].offered.Some? && Stands(db, h.db, o, h.db.orders[o].offered.value, env)
      && h.db.orders[o].fallback
  {
    hide OfferToNextDriver, Repair, RosterOk, DistinctPositions, Pick, Ready;
    ReadyParts(db, o);
    SearchFormReady(db, o, true);
    var x := SearchForm(db, o, true);
    SearchFormPicks(db, o);
    SearchFormAlike(db, o, true);
    RepairFrame(db);
    WillingAsks(x, o, Some(Gorno), env, depth);
  }

  lemma SearchFormPicks(db: Db, o: OrderId)
    requires Ready(db, o)
    ensures var x := SearchForm(db, o, true);
      && o in x.orders && x.orders[o].notes == db.orders[o].notes
      && (forall line, excluded :: Pick(Repair(x), line, excluded) == Pick(Repair(db), line, excluded))
      && (forall line, excluded :: HasWaiting(x, line, excluded) == HasWaiting(db, line, excluded))
  {
    hide Repair, HasWaiting, ClaimTrip, RosterOk, DistinctPositions, IsParked, Ready, Pick;
    ReadyParts(db, o);
    RepairFrame(db);
    var row := db.orders[o].(status := Searching, etaChosen := false, fallback := true);
    FormsAlike(db, o, row, db.parked);
    assert SearchForm(db, o, true) == Put(Repair(db), o, row).(parked := db.parked);
  }

  lemma GornoQuiet(db: Db, o: OrderId, env: Env, depth: nat)
    requires Ready(db, o) && !Staffed(db, Gorno) && RouteCity(db.orders[o]).Some? && !ForChat(db.orders[o])
    ensures var h := EnterFallback(ParkedForm(db, o, db.orders[o].(etaChosen := false)), o, env, depth);
      Quiet(h.db, o) && Rests(db, h.db, o, env)
  {
    hide OfferToNextDriver, Repair, HasWaiting, RosterOk, DistinctPositions, ParkedForm, Ready, IsParked;
    ReadyParts(db, o);
    var row := db.orders[o].(etaChosen := false);
    ParkedFormRow(db, o, row);
    ParkedFormRow(db, o, row.(fallback := true));
    ParkedFormAlike(db, o, row.(fallback := true));
    ParkedFormFlag(db, o, row);
  }

  // ---------------------------------------------------------------- fewer and fewer wait

  lemma PlaceFewer(db: Db, o: OrderId, d: DriverId, env: Env)
    requires RosterOk(db) && DistinctPositions(db.queue) && o in db.orders && d in db.queue && Unseen(db.orders[o])
    ensures FewerWait(db, PlaceOffer(db, o, d, env))
  {
    hide FewerWait, DistinctPositions, Engaged;
    var r := PlaceOffer(db, o, d, env);
    assert DistinctPositions(r.queue) by { SamePlaces(db.queue, d); }
    assert LiveOffer(r.orders, o, d);
    forall e: DriverId | e in r.drivers && !OfferedTo(r, e) ensures SameDriver(db, r, e) {
      assert e != d;
      UnseenCommitted(db.orders, r.orders, o, e);
      OthersOffered(db, r, o, e);
    }
    SameOrBusy(db, r);
  }

  lemma SamePlaces(queue: Queue, d: DriverId)
    requires DistinctPositions(queue) && d in queue
    ensures DistinctPositions(queue[d := queue[d].(status := Offered)])
  {
  }

  lemma UnseenCommitted(orders: Orders, orders': Orders, o: OrderId, e: DriverId)
    requires o in orders && o in orders' && orders' == orders[o := orders'[o]]
    requires orders[o].driver != Some(e) && orders[o].reserved != Some(e) && orders'[o].driver != Some(e)
    requires orders'[o].reserved != Some(e)
    ensures Committed(orders', e) == Committed(orders, e)
  {
    assert !Occupies(orders[o], e);
    assert !Occupies(orders'[o], e);
    if Committed(orders, e) {
      var x: OrderId :| x in orders && Occupies(orders[x], e);
      assert x != o && x in orders' && orders'[x] == orders[x];
      Occupied(orders', x, e);
    }
    if Committed(orders', e) {
      var x: OrderId :| x in orders' && Occupies(orders'[x], e);
      assert x != o && x in orders && orders'[x] == orders[x];
      Occupied(orders, x, e);
    }
  }

  lemma Occupied(orders: Orders, x: OrderId, e: DriverId)
    requires x in orders && Occupies(orders[x], e)
    ensures Committed(orders, e)
  {
  }

  predicate Occupies(row: Order, d: DriverId)
  {
    || (row.driver == Some(d) && (Riding(row.status) || row.status == ParallelAssigned))
    || (row.reserved == Some(d) && row.status == ParallelAssigned)
  }

  lemma OthersOffered(db: Db, r: Db, o: OrderId, e: DriverId)
    requires o in db.orders && o in r.orders && r.orders == db.orders[o := r.orders[o]]
    requires db.orders[o].offered != Some(e) && r.orders[o].offered != Some(e)
    ensures OfferedTo(r, e) == OfferedTo(db, e)
  {
    if OfferedTo(db, e) {
      var x :| x in db.orders && LiveOffer(db.orders, x, e);
      assert LiveOffer(r.orders, x, e);
    }
    if OfferedTo(r, e) {
      var x :| x in r.orders && LiveOffer(r.orders, x, e);
      assert LiveOffer(db.orders, x, e);
    }
  }

  lemma RepairFewer(db: Db)
    requires RosterOk(db) && DistinctPositions(db.queue)
    ensures FewerWait(db, Repair(db)) && RosterOk(Repair(db)) && DistinctPositions(Repair(db).queue)
  {
    hide RepairAll, Pick, RosterOk, DistinctPositions;
    RepairDoes(db);
    RepairIdempotent(db);
  }

  // The cascade makes nobody wait who did not wait before.
  lemma CascadeFewer(db: Db, o: OrderId, line: Option<Line>, env: Env, depth: nat)
    requires Ready(db, o) && depth >= 2 && (line.Some? ==> line.value == StageLine(db.orders[o]))
    requires OfferToNextDriver(db, o, {}, line, env, depth).Done?
    ensures FewerWait(db, OfferToNextDriver(db, o, {}, line, env, depth).db)
  {
    hide OfferToNextDriver, HandleNoDriver, ParkAndNotify, Repair, HasWaiting, Ready, ClaimTrip, Pick, FewerWait;
    ReadyParts(db, o);
    var row := db.orders[o];
    if Willing(db, o, StageLine(row)) {
      WillingFewer(db, o, line, env, depth);
    } else if Stuck(db, o, env) {
      StuckNeverEnds(db, o, {}, line, env, depth);
      assert false;
    } else {
      OfferSkips(db, o, {}, line, env, depth);
      if ForChat(row) {
        ChatFewer(db, o, env, depth - 1);
      } else {
        HandleParks(db, o, env, depth - 1);
        if RouteCity(row).None? { OrdinaryFewer(db, o, env, depth - 1); }
        else if !row.fallback && RouteOfferPossible(db, o, env) { CardFewer(db, o, env, depth - 1); }
        else {
          NobodyNotified(db, o, env, depth - 1);
          FallbackFewer(db, o, env, depth - 1);
        }
      }
    }
  }

  lemma WillingFewer(db: Db, o: OrderId, line: Option<Line>, env: Env, depth: nat)
    requires Ready(db, o) && Willing(db, o, if line.Some? then line.value else StageLine(db.orders[o])) && depth >= 1
    ensures FewerWait(db, OfferToNextDriver(db, o, {}, line, env, depth).db)
  {
    hide Repair, Pick, HandleNoDriver, RosterOk, DistinctPositions, Eligible, StageLine, FewerWait;
    ReadyParts(db, o);
    RepairFrame(db);
    var mid := Repair(db);
    var target := if line.Some? then line.value else StageLine(db.orders[o]);
    RepairFewer(db);
    PickIsFirst(mid, target, db.orders[o].notes.declined);
    var d := Pick(mid, target, db.orders[o].notes.declined).value;
    InQueue(mid, target, db.orders[o].notes.declined, d);
    assert db.orders[o].notes.declined + {} == db.orders[o].notes.declined;
    PlaceFewer(mid, o, d, env);
    FewerThen(db, mid, PlaceOffer(mid, o, d, env));
  }

  lemma FormFewer(db: Db, o: OrderId, row: Order, parked: seq<Parked>, x: Db)
    requires RosterOk(db) && DistinctPositions(db.queue) && o in db.orders && Unseen(db.orders[o]) && Unseen(row)
    requires SameRequest(db.orders[o], row.(fallback := db.orders[o].fallback))
    requires db.orders[o].offerCard == row.offerCard
    requires x == Put(Repair(db), o, row).(parked := parked)
    ensures FewerWait(db, x)
  {
    hide Repair, HasWaiting, ClaimTrip, Pick, RosterOk, DistinctPositions, SameRequest;
    FormsAlike(db, o, row, parked);
  }

  lemma ChatFewer(db: Db, o: OrderId, env: Env, depth: nat)
    requires Ready(db, o) && !Willing(db, o, StageLine(db.orders[o])) && ForChat(db.orders[o])
    ensures FewerWait(db, HandleNoDriver(Repair(db), o, env, depth).db)
  {
    hide Repair, HasWaiting, Ready, FewerWait;
    ReadyParts(db, o);
    RepairFrame(db);
    RepairIdempotent(db);
    FormsAlike(db, o, db.orders[o], db.parked);
    assert Put(Repair(db), o, db.orders[o]).(parked := db.parked) == Repair(db) by {
      assert db.orders[o := db.orders[o]] == db.orders;
    }
    var none, chat := db.orders[o].(status := NoDrivers), db.orders[o].(status := ChatSearch);
    OverwriteRow(db.orders, o, none, chat);
    FormFewer(db, o, none, db.parked, Put(Repair(db), o, none).(parked := db.parked));
    FormFewer(db, o, chat, db.parked, Put(Repair(db), o, chat).(parked := db.parked));
  }

  lemma OrdinaryFewer(db: Db, o: OrderId, env: Env, depth: nat)
    requires Ready(db, o) && RouteCity(db.orders[o]).None?
    ensures FewerWait(db, ParkAndNotify(ParkedForm(db, o, db.orders[o]), o, env, depth).db)
  {
    hide Repair, HasWaiting, Ready, Fallback, ParkedForm, ClaimTrip, RosterOk, DistinctPositions;
    ReadyParts(db, o);
    ParkedFormRow(db, o, db.orders[o]);
    ParkedFormAlike(db, o, db.orders[o]);
  }

  lemma CardFewer(db: Db, o: OrderId, env: Env, depth: nat)
    requires Ready(db, o) && RouteCity(db.orders[o]).Some? && !db.orders[o].fallback
    requires !Staffed(db, StageLine(db.orders[o])) && RouteOfferPossible(db, o, env)
    ensures FewerWait(db, ParkAndNotify(ParkedForm(db, o, db.orders[o]), o, env, depth).db)
  {
    hide Repair, HasWaiting, Ready, Fallback, ParkedForm, ClaimTrip, RosterOk, DistinctPositions;
    ReadyParts(db, o);
    var row := db.orders[o];
    ParkedFormRow(db, o, row);
    ParkedFormAlike(db, o, row);
    var p := ParkedForm(db, o, row);
    var r := ParkAndNotify(p, o, env, depth).db;
    var trip := ClaimTrip(p.orders, o, p.nextOrder).value;
    assert r == PlaceRouteOffer(p, o, trip, env.cards[o]);
    PlacedForm(db, o, row, r);
    ParkedFormAlike(db, o, r.orders[o]);
  }

  lemma FallbackFewer(db: Db, o: OrderId, env: Env, depth: nat)
    requires Ready(db, o) && RouteCity(db.orders[o]).Some? && !ForChat(db.orders[o]) && !Stuck(db, o, env) && depth >= 1
    requires !Willing(db, o, StageLine(db.orders[o])) && (db.orders[o].fallback || !RouteOfferPossible(db, o, env))
    ensures FewerWait(db, Fallback(ParkedForm(db, o, db.orders[o]), o, true, env, depth).db)
  {
    hide OfferToNextDriver, Repair, HasWaiting, Parking, Unparked;
    hide EnterFallback, RosterOk, DistinctPositions, Pick, RouteOfferPossible;
    hide ParkedForm, Ready, IsParked, FewerWait;
    ReadyParts(db, o);
    var row := db.orders[o];
    ParkedFormRow(db, o, row);
    ParkingRests(db, o, row);
    ParkedFormRow(db, o, row.(etaChosen := false));
    ParkedFormAlike(db, o, row.(etaChosen := false));
    if Staffed(db, Gorno) {
      EntersFallback(db, o, env, depth);
      SearchFormReady(db, o, true);
      SearchFormPicks(db, o);
      WillingFewer(SearchForm(db, o, true), o, Some(Gorno), env, depth);
      SearchFewer(db, o);
      var x := SearchForm(db, o, true);
      FewerThen(db, x, OfferToNextDriver(x, o, {}, Some(Gorno), env, depth).db);
    } else {
      GornoFewer(db, o, env, depth);
    }
  }

  lemma SearchFewer(db: Db, o: OrderId)
    requires Ready(db, o)
    ensures FewerWait(db, SearchForm(db, o, true))
  {
    hide HasWaiting, SearchForm, Pick, Repair;
    SearchFormPicks(db, o);
  }

  lemma GornoFewer(db: Db, o: OrderId, env: Env, depth: nat)
    requires Ready(db, o) && !Staffed(db, Gorno)
    ensures FewerWait(db, EnterFallback(ParkedForm(db, o, db.orders[o].(etaChosen := false)), o, env, depth).db)
  {
    hide OfferToNextDriver, Repair, HasWaiting, RosterOk, DistinctPositions, ParkedForm, Ready, IsParked;
    ReadyParts(db, o);
    var row := db.orders[o].(etaChosen := false);
    ParkedFormRow(db, o, row);
    ParkedFormAlike(db, o, row.(fallback := true));
    ParkedFormFlag(db, o, row);
  }

  // ---------------------------------------------------------------- the opportunity check

  // Probes do not look at the passenger queue.
  lemma ParkedUnseen(db: Db, parked: seq<Parked>, o: OrderId)
    requires o in db.orders && Unseen(db.orders[o])
    ensures forall line, excluded ::
              HasWaiting(db.(parked := parked), line, excluded) == HasWaiting(db, line, excluded)
    ensures DriverInReach(db.(parked := parked), o) == DriverInReach(db, o)
  {
    hide Repair, Pick, ClaimTrip, HasWaiting;
    var x := db.(parked := parked);
    assert x.orders == db.orders[o := x.orders[o]];
    UnseenRepairs(db, x, o);
    ProbesAlike(db, x, o);
  }

  lemma RepairedReach(db: Db, o: OrderId)
    requires RosterOk(db) && DistinctPositions(db.queue) && o in db.orders
    ensures o in Repair(db).orders && DriverInReach(Repair(db), o) == DriverInReach(db, o)
  {
    hide RepairAll, Pick, RosterOk, DistinctPositions;
    RepairIdempotent(db);
    RepairFrame(db);
  }

  lemma QuietPasses(db: Db, o: OrderId, env: Env, depth: nat)
    requires o in db.orders && !DriverInReach(db, o) && RowOk(db.orders[o]) && Candidate(db.orders[o].status)
    requires RouteCity(db.orders[o]).None? || db.orders[o].fallback
          || (db.orders[o].slot.driver.Some? && db.orders[o].slot.trip.Some?)
    ensures ServeOne(db, o, env, depth) == Passed(db)
  {
    hide Repair, HasWaiting, ClaimTrip;
  }

  ghost predicate OthersSame(db: Db, r: Db, q: OrderId)
  {
    forall a :: a in db.orders && a != q ==> a in r.orders && r.orders[a] == db.orders[a]
  }

  lemma SameThen(a: Db, b: Db, c: Db, q: OrderId)
    requires OthersSame(a, b, q) && OthersSame(b, c, q)
    ensures OthersSame(a, c, q)
  {
  }

  lemma SameItself(db: Db, r: Db, q: OrderId)
    requires r.orders == db.orders || (q in r.orders && r.orders == db.orders[q := r.orders[q]])
    ensures OthersSame(db, r, q)
  {
  }

  // Dispatch of one order leaves the rows of all others as they are, whatever the
  // state.
  lemma {:induction false} OfferAlone(db: Db, q: OrderId, skip: set<DriverId>, line: Option<Line>, env: Env, depth: nat)
    requires q in db.orders
    ensures OthersSame(db, OfferToNextDriver(db, q, skip, line, env, depth).db, q)
    decreases depth, 0
  {
    hide Repair, Pick, OthersSame, HandleNoDriver, StageLine;
    SameItself(db, db, q);
    if depth > 0 && Offerable(db.orders[q]) {
      RepairFrame(db);
      var mid := Repair(db);
      var target := if line.Some? then line.value else StageLine(db.orders[q]);
      var d := Pick(mid, target, db.orders[q].notes.declined + skip);
      if d.Some? && d.value in mid.queue {
        SameItself(db, PlaceOffer(mid, q, d.value, env), q);
      } else {
        SameItself(db, mid, q);
        HandleAlone(mid, q, env, depth - 1);
        SameThen(db, mid, HandleNoDriver(mid, q, env, depth - 1).db, q);
      }
    }
  }

  lemma {:induction false} HandleAlone(db: Db, q: OrderId, env: Env, depth: nat)
    requires q in db.orders
    ensures OthersSame(db, HandleNoDriver(db, q, env, depth).db, q)
    decreases depth, 4
  {
    hide Repair, HasEligible, OthersSame, OfferToNextDriver, ParkAndNotify;
    RepairFrame(db);
    SameItself(db, Repair(db), q);
    OfferAlone(Repair(db), q, {}, None, env, depth);
    SameThen(db, Repair(db), OfferToNextDriver(Repair(db), q, {}, None, env, depth).db, q);
    var none := SetStatus(Repair(db), q, NoDrivers);
    SameItself(db, none, q);
    SameItself(none, AskChat(none, q, env), q);
    SameThen(db, none, AskChat(none, q, env), q);
    var p := Enqueue(none, q);
    SameItself(none, p, q);
    SameThen(db, none, p, q);
    ParkAlone(p, q, env, depth);
    SameThen(db, p, ParkAndNotify(p, q, env, depth).db, q);
  }

  lemma NotifiedAlone(db: Db, q: OrderId, env: Env)
    requires q in db.orders
    ensures OthersSame(db, NotifyBusyDrivers(db, q, env).db, q)
  {
    hide Repair, HasWaiting, ClaimTrip;
    RepairFrame(db);
  }

  lemma {:induction false} ParkAlone(db: Db, q: OrderId, env: Env, depth: nat)
    requires q in db.orders
    ensures OthersSame(db, ParkAndNotify(db, q, env, depth).db, q)
    decreases depth, 3
  {
    hide OthersSame, NotifyBusyDrivers, Fallback;
    var n := NotifyBusyDrivers(db, q, env).db;
    NotifiedAlone(db, q, env);
    FallsAlone(n, q, true, env, depth);
    SameThen(db, n, Fallback(n, q, true, env, depth).db, q);
  }

  lemma HandedAlone(db: Db, q: OrderId, line: Line, env: Env, depth: nat)
    requires q in db.orders
    ensures q in Unparked(Repair(db), q).orders
    ensures OthersSame(db, OfferToNextDriver(Unparked(Repair(db), q), q, {}, Some(line), env, depth).db, q)
    decreases depth, 1, 0
  {
    hide Repair, OthersSame, OfferToNextDriver;
    RepairFrame(db);
    var u := Unparked(Repair(db), q);
    SameItself(db, u, q);
    OfferAlone(u, q, {}, Some(line), env, depth);
    SameThen(db, u, OfferToNextDriver(u, q, {}, Some(line), env, depth).db, q);
  }

  lemma {:induction false} FallsAlone(db: Db, q: OrderId, recheck: bool, env: Env, depth: nat)
    requires q in db.orders
    ensures OthersSame(db, Fallback(db, q, recheck, env, depth).db, q)
    decreases depth, 2
  {
    hide Repair, OthersSame, Parking, Unparked, EnterFallback, OfferToNextDriver, HasWaiting, RouteCity;
    SameItself(db, db, q);
    var p := Parking(db, q);
    ParkingAlone(db, q);
    RepairFrame(p);
    EntersAlone(p, q, env, depth);
    SameThen(db, p, EnterFallback(p, q, env, depth).db, q);
    EntersAlone(Repair(p), q, env, depth);
    SameItself(p, Repair(p), q);
    SameThen(p, Repair(p), EnterFallback(Repair(p), q, env, depth).db, q);
    SameThen(db, p, EnterFallback(Repair(p), q, env, depth).db, q);
    if RouteCity(db.orders[q]).Some? {
      var line := VillageLine(RouteCity(db.orders[q]).value);
      HandedAlone(p, q, line, env, depth);
      SameThen(db, p, OfferToNextDriver(Unparked(Repair(p), q), q, {}, Some(line), env, depth).db, q);
    }
  }

  lemma ParkingAlone(db: Db, q: OrderId)
    requires q in db.orders
    ensures OthersSame(db, Parking(db, q), q)
  {
  }

  lemma EntersAlone(db: Db, q: OrderId, env: Env, depth: nat)
    requires q in db.orders
    ensures OthersSame(db, EnterFallback(db, q, env, depth).db, q)
    decreases depth, 1, 1
  {
    hide Repair, OthersSame, Unparked, OfferToNextDriver, HasWaiting;
    var f := Put(db, q, db.orders[q].(fallback := true));
    SameItself(db, f, q);
    RepairFrame(f);
    SameItself(db, Repair(f), q);
    HandedAlone(f, q, Gorno, env, depth);
    SameThen(db, f, OfferToNextDriver(Unparked(Repair(f), q), q, {}, Some(Gorno), env, depth).db, q);
  }

  // So does serving one order,
  lemma ServedAlone(db: Db, q: OrderId, env: Env, depth: nat)
    requires q in db.orders
    ensures var s := ServeOne(db, q, env, depth); OthersSame(db, if s.Acted? then s.result.db else s.db, q)
  {
    hide OthersSame, Fallback, OfferToNextDriver, NotifyBusyDrivers, DriverInReach, TripInReach, RouteCity, StageLine;
    SameItself(db, db.(parked := SetPark(db.parked, q, Polling)), q);
    SameItself(db, db, q);
    var u, n := Unparked(db, q), NotifyBusyDrivers(db, q, env).db;
    var line := if RouteCity(db.orders[q]).Some? then Some(StageLine(db.orders[q])) else None;
    SameItself(db, u, q);
    OfferAlone(u, q, {}, line, env, depth);
    SameThen(db, u, OfferToNextDriver(u, q, {}, line, env, depth).db, q);
    FallsAlone(db, q, true, env, depth);
    NotifiedAlone(db, q, env);
    FallsAlone(n, q, true, env, depth);
    SameThen(db, n, Fallback(n, q, true, env, depth).db, q);
  }

  // Passing over order q changes, at most, its card.
  lemma PassedLooksAlike(db: Db, q: OrderId, o: OrderId, env: Env, depth: nat, e: Option<DriverId>)
    requires InvDuring(db, e) && q in db.orders && db.orders[q].status == Queued && Repair(db) == db
    requires o in db.orders && o != q && ServeOne(db, q, env, depth).Passed?
    ensures var r := ServeOne(db, q, env, depth).db;
      && o in r.orders && r.orders[o] == db.orders[o] && r.parked == db.parked
      && DriverInReach(r, o) == DriverInReach(db, o)
  {
    hide InvDuring, Repair, HasWaiting, ClaimTrip, DriverInReach, TripInReach, FreeDriverHasPriority;
    var r := ServeOne(db, q, env, depth).db;
    QueuedUnseen(db, q, e);
    if r != db {
      SlotUnseen(db, r, q);
    }
    SameReach(db, r, o, q);
  }

  lemma QueuedUnseen(db: Db, q: OrderId, e: Option<DriverId>)
    requires InvDuring(db, e) && q in db.orders && db.orders[q].status == Queued
    ensures Unseen(db.orders[q])
  {
    assert RowOk(db.orders[q]);
  }

  lemma SlotUnseen(db: Db, r: Db, q: OrderId)
    requires q in db.orders && q in r.orders && Unseen(db.orders[q])
    requires r == Put(db, q, db.orders[q].(slot := r.orders[q].slot))
    ensures Alike(db, r, q)
  {
    hide Repair;
    UnseenRepairs(db, r, q);
  }

  lemma SameReach(db: Db, r: Db, o: OrderId, q: OrderId)
    requires r == db || Alike(db, r, q)
    requires o in db.orders && o in r.orders && r.orders[o] == db.orders[o]
    ensures DriverInReach(r, o) == DriverInReach(db, o)
  {
    hide Repair, Pick, ClaimTrip;
    if r != db { ProbesAlike(db, r, q); }
  }

  // A quiet order is left alone by the opportunity check.
  lemma {:induction false} ServeLeavesQuiet(db: Db, waiting: seq<OrderId>, o: OrderId, env: Env, depth: nat,
        e: Option<DriverId>)
    requires InvDuring(db, e) && AllQueued(db, waiting) && Distinct(waiting) && Quiet(db, o)
    requires o in waiting ==> IsParked(db.parked, o)
    ensures var r := Serve(db, waiting, env, depth).db; o in r.orders && r.orders[o] == db.orders[o]
    decreases |waiting|
  {
    hide InvDuring, Repair, ServeOne, DriverInReach, IsParked, Calm, RowCalm;
    if waiting != [] {
      var mid, q := Repair(db), waiting[0];
      assert q in waiting && q in db.orders && db.orders[q].status == Queued;
      RepairCalm(db, e);
      RepairFrame(db);
      RosterPart(db, e);
      RepairedReach(db, o);
      RepairIdempotent(db);
      ServeOneKeeps(mid, q, env, depth, e);
      var s := ServeOne(mid, q, env, depth);
      if q == o {
        QueuedRow(mid, o, e);
        QuietPasses(mid, o, env, depth);
        PassedRest(mid, s.db, waiting, env, depth, e);
        ServeRest(s.db, waiting[1..], o, env, depth) by { assert o !in waiting[1..]; }
      } else {
        ServedAlone(mid, q, env, depth);
        if s.Passed? {
          PassedLooksAlike(mid, q, o, env, depth, e);
          PassedRest(mid, s.db, waiting, env, depth, e);
          assert waiting[1..] <= waiting[1..];
          ServeLeavesQuiet(s.db, waiting[1..], o, env, depth, e);
        }
      }
    }
  }

  lemma QueuedRow(db: Db, o: OrderId, e: Option<DriverId>)
    requires InvDuring(db, e) && o in db.orders && db.orders[o].status == Queued
    ensures RowOk(db.orders[o]) && Candidate(db.orders[o].status)
  {
  }

  lemma PassedRest(mid: Db, r: Db, waiting: seq<OrderId>, env: Env, depth: nat, e: Option<DriverId>)
    requires waiting != [] && AllQueued(mid, waiting) && Distinct(waiting)
    requires forall a :: a in mid.orders && a != waiting[0] ==> a in r.orders && r.orders[a] == mid.orders[a]
    ensures AllQueued(r, waiting[1..]) && Distinct(waiting[1..])
    ensures waiting[0] !in waiting[1..]
  {
    forall a | a in waiting[1..] ensures a != waiting[0] && a in waiting {
      var i :| 0 <= i < |waiting| - 1 && waiting[1..][i] == a;
      assert waiting[i + 1] == a;
    }
  }

  // and an order not in the list is not served.
  lemma {:induction false} ServeRest(db: Db, waiting: seq<OrderId>, o: OrderId, env: Env, depth: nat)
    requires o in db.orders && o !in waiting
    ensures var r := Serve(db, waiting, env, depth).db; o in r.orders && r.orders[o] == db.orders[o]
    decreases |waiting|
  {
    hide Repair, ServeOne;
    if waiting != [] {
      if waiting[0] !in db.orders { ServeRest(db, waiting[1..], o, env, depth); }
      else {
        var mid := Repair(db);
        RepairFrame(db);
        ServedAlone(mid, waiting[0], env, depth);
        var s := ServeOne(mid, waiting[0], env, depth);
        if s.Passed? { ServeRest(s.db, waiting[1..], o, env, depth); }
      }
    }
  }

  // The check touches no order outside the passenger queue, whatever the state.
  lemma CheckLeavesOthers(db: Db, o: OrderId, env: Env, depth: nat)
    requires o in db.orders && !IsParked(db.parked, o)
    ensures var r := TryPromote(db, env, depth).db; o in r.orders && r.orders[o] == db.orders[o]
  {
    hide Repair, Serve, With, PromptsStand, IsParked, PausePrompts;
    RepairFrame(db);
    var polled := With(db.parked, Polling);
    var mid := if polled == [] then db else Repair(db);
    var parked := if polled == [] then db.parked else PausePrompts(db.parked, None);
    PausedParks(db.parked, o);
    ListedParks(parked, o);
    ServeRest(mid.(parked := parked), With(parked, ParkWaiting), o, env, depth);
  }

  lemma CheckLeavesQuiet(db: Db, o: OrderId, env: Env, depth: nat, e: Option<DriverId>)
    requires InvDuring(db, e) && Quiet(db, o) && Unseen(db.orders[o])
    ensures var r := TryPromote(db, env, depth).db; o in r.orders && r.orders[o] == db.orders[o]
  {
    hide InvDuring, Calm, Repair, Serve, With, PromptsStand, AllQueued, Distinct, DriverInReach, IsParked;
    RepairCalm(db, e);
    RepairFrame(db);
    RosterPart(db, e);
    RepairedReach(db, o);
    var polled := With(db.parked, Polling);
    var mid := if polled == [] then db else Repair(db);
    if !(polled != [] && PromptsStand(mid, polled)) {
      var parked := if polled == [] then mid.parked else PausePrompts(mid.parked, None);
      var q := mid.(parked := parked);
      assert polled == [] ==> q == mid;
      PauseKeeps(mid, None, e);
      ParkedUnseen(mid, parked, o);
      PausedParks(mid.parked, o);
      ParkedQueued(q, e, ParkWaiting);
      ListedParks(parked, o);
      ServeLeavesQuiet(q, With(parked, ParkWaiting), o, env, depth, e);
    }
  }

  lemma PausedParks(parked: seq<Parked>, o: OrderId)
    ensures IsParked(PausePrompts(parked, None), o) == IsParked(parked, o)
  {
    SameQueueParks(parked, PausePrompts(parked, None));
  }

  lemma {:induction false} ListedParks(parked: seq<Parked>, o: OrderId)
    ensures o in With(parked, ParkWaiting) ==> IsParked(parked, o)
  {
    if parked != [] && o in With(parked, ParkWaiting) {
      if parked[0].order != o {
        ListedParks(parked[1..], o);
        var i :| 0 <= i < |parked| - 1 && parked[1..][i].order == o;
        assert parked[i + 1].order == o;
      }
    }
  }
}
