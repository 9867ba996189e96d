// When the dispatch cascade ends. The probe of a village line ignores who has
// declined the order while the pick honours it; the two disagreeing is exactly
// what sends offer, no-driver and fallback round in a circle.
module CascadeDepth {
  import opened Options
  import opened DispatchState
  import opened OrderTable
  import opened DriverLine
  import opened Cascade
  import opened CascadeInv

  // A waiting driver stands on the line.
  predicate Staffed(db: Db, line: Line) { HasWaiting(db, line, {}) }

  // One of them has not declined order o.
  predicate Willing(db: Db, o: OrderId, line: Line)
    requires o in db.orders
  {
    HasWaiting(db, line, db.orders[o].notes.declined)
  }

  predicate RouteOfferPossible(db: Db, o: OrderId, env: Env)
    requires o in db.orders
  {
    !db.orders[o].offerCard && o in env.cards && ClaimTrip(db.orders, o, db.nextOrder).Some?
  }

  // Everybody waiting on the consulted line has already declined this village
  // request, and no other outlet is open to it.
  predicate Stuck(db: Db, o: OrderId, env: Env)
    requires o in db.orders
  {
    var row := db.orders[o];
    var line := StageLine(row);
    && RouteCity(row).Some?
    && (row.request.byDispatcher || !(row.request.delivery || row.notes.chatReason))
    && !Willing(db, o, line)
    && (Staffed(db, line)
        || (!row.fallback && !RouteOfferPossible(db, o, env) && Staffed(db, Gorno) && !Willing(db, o, Gorno)))
  }

  // ---------------------------------------------------------------- what probes see

  predicate Unseen(row: Order)
  {
    row.driver.None? && row.reserved.None? && row.offered.None?
  }

  // Two states that differ only in an unassigned order, the passenger queue and
  // a finished repair look the same to every probe.
  predicate Alike(db: Db, db': Db, o: OrderId)
  {
    && o in db.orders && o in db'.orders
    && db'.orders == db.orders[o := db'.orders[o]]
    && Unseen(db.orders[o]) && Unseen(db'.orders[o])
    && SameRequest(db.orders[o], db'.orders[o].(fallback := db.orders[o].fallback))
    && db.orders[o].offerCard == db'.orders[o].offerCard
    && db'.roster == db.roster && db'.drivers == db.drivers && db'.holds == db.holds
    && db'.lines == db.lines && db'.nextOrder == db.nextOrder
    && Repair(db').queue == Repair(db).queue
  }

  lemma UnseenEngages(db: Db, db': Db, o: OrderId, d: DriverId)
    requires o in db.orders && o in db'.orders && db'.orders == db.orders[o := db'.orders[o]]
    requires Unseen(db.orders[o]) && Unseen(db'.orders[o])
    requires db'.holds == db.holds
    ensures Engaged(db', d) == Engaged(db, d)
    ensures OfferedTo(db', d) == OfferedTo(db, d)
    ensures forall a :: LiveOffer(db'.orders, a, d) == LiveOffer(db.orders, a, d)
  {
    forall a ensures LiveOffer(db'.orders, a, d) == LiveOffer(db.orders, a, d) { }
    if OfferedTo(db, d) {
      var a :| a in db.orders && LiveOffer(db.orders, a, d);
      assert LiveOffer(db'.orders, a, d);
    }
    if OfferedTo(db', d) {
      var a :| a in db'.orders && LiveOffer(db'.orders, a, d);
      assert LiveOffer(db.orders, a, d);
    }
  }

  lemma UnseenRepairs(db: Db, db': Db, o: OrderId)
    requires o in db.orders && o in db'.orders && db'.orders == db.orders[o := db'.orders[o]]
    requires Unseen(db.orders[o]) && Unseen(db'.orders[o])
    requires db'.roster == db.roster && db'.drivers == db.drivers && db'.holds == db.holds
    requires db'.lines == db.lines && db'.queue == db.queue
    ensures Repair(db').queue == Repair(db).queue
  {
    hide Engaged, OfferedTo;
    forall d ensures Repairable(db', d) == Repairable(db, d) {
      UnseenEngages(db, db', o, d);
    }
    assert Unbound(db') == Unbound(db);
    RepairAllAlike(db, db', Unbound(db), db.queue, db.roster, MaxPosition(db));
  }

  lemma {:induction false} RepairAllAlike(db: Db, db': Db, unbound: set<DriverId>, queue: Queue,
                                          todo: seq<DriverId>, last: nat)
    requires db'.drivers == db.drivers && db'.lines == db.lines && db'.queue == db.queue
    ensures RepairAll(db', unbound, queue, todo, last) == RepairAll(db, unbound, queue, todo, last)
    decreases |todo|
  {
    if todo != [] {
      var d := todo[0];
      if d !in unbound || d !in db.drivers {
        RepairAllAlike(db, db', unbound, queue, todo[1..], last);
      } else {
        var last' := if d in db.queue then last else last + 1;
        RepairAllAlike(db, db', unbound, queue[d := RepairedRow(db, d, last')], todo[1..], last');
      }
    }
  }

  lemma {:induction false} PickAlike(db: Db, db': Db, o: OrderId, line: Line, excluded: set<DriverId>, i: nat)
    requires Alike(db, db', o) && i <= |db.roster|
    ensures PickFrom(Repair(db'), line, excluded, i) == PickFrom(Repair(db), line, excluded, i)
    decreases |db.roster| - i
  {
    if i < |db.roster| {
      var r, r' := Repair(db), Repair(db');
      var d := db.roster[i];
      PickAlike(db, db', o, line, excluded, i + 1);
      assert Eligible(r', line, excluded, d) == Eligible(r, line, excluded, d) by {
        hide Repair;
        RepairFrame(db);
        RepairFrame(db');
        EligibleAlike(r, r', o, line, excluded, d);
      }
    }
  }

  lemma EligibleAlike(db: Db, db': Db, o: OrderId, line: Line, excluded: set<DriverId>, d: DriverId)
    requires o in db.orders && o in db'.orders && db'.orders == db.orders[o := db'.orders[o]]
    requires Unseen(db.orders[o]) && Unseen(db'.orders[o])
    requires db'.drivers == db.drivers && db'.lines == db.lines && db'.queue == db.queue
    requires db'.holds == db.holds
    ensures Eligible(db', line, excluded, d) == Eligible(db, line, excluded, d)
  {
    UnseenEngages(db, db', o, d);
  }

  lemma ProbesAlike(db: Db, db': Db, o: OrderId)
    requires Alike(db, db', o)
    ensures forall line, excluded :: Pick(Repair(db'), line, excluded) == Pick(Repair(db), line, excluded)
    ensures forall line, excluded :: HasWaiting(db', line, excluded) == HasWaiting(db, line, excluded)
    ensures ClaimTrip(db'.orders, o, db'.nextOrder) == ClaimTrip(db.orders, o, db.nextOrder)
  {
    hide Repair;
    forall line, excluded ensures Pick(Repair(db'), line, excluded) == Pick(Repair(db), line, excluded) {
      RepairFrame(db);
      RepairFrame(db');
      PickAlike(db, db', o, line, excluded, 0);
    }
    TripsAlike(db, db', o, db.nextOrder);
  }

  lemma {:induction false} TripsAlike(db: Db, db': Db, o: OrderId, n: OrderId)
    requires Alike(db, db', o)
    ensures ClaimTrip(db'.orders, o, n) == ClaimTrip(db.orders, o, n)
    decreases n
  {
    hide Repair;
    if n > 0 {
      TripsAlike(db, db', o, n - 1);
      TripAlike(db, db', o, n - 1);
    }
  }

  lemma TripAlike(db: Db, db': Db, o: OrderId, t: OrderId)
    requires Alike(db, db', o)
    ensures TripEligible(db'.orders, t, o) == TripEligible(db.orders, t, o)
  {
    hide Repair;
    forall d: DriverId ensures ReservedBy(db'.orders, d) == ReservedBy(db.orders, d)
        && RouteOfferedElsewhere(db'.orders, d, o) == RouteOfferedElsewhere(db.orders, d, o)
    {
      if ReservedBy(db.orders, d) {
        var x :| x in db.orders && db.orders[x].reserved == Some(d) && db.orders[x].status == ParallelAssigned;
        assert x in db'.orders && db'.orders[x] == db.orders[x];
      }
      if RouteOfferedElsewhere(db.orders, d, o) {
        var x :| x in db.orders && x != o && db.orders[x].slot.driver == Some(d);
        assert x in db'.orders && db'.orders[x] == db.orders[x];
      }
    }
  }

  // ---------------------------------------------------------------- the circle

  // Parking an order and taking it out again.
  lemma {:induction false} UnparkAbsent(parked: seq<Parked>, o: OrderId)
    requires !IsParked(parked, o)
    ensures Unpark(parked, o) == parked
    ensures Unpark(parked + [Parked(o, ParkWaiting)], o) == parked
  {
    if parked == [] {
      assert Unpark([Parked(o, ParkWaiting)], o) == Unpark([], o);
    } else {
      assert parked[0].order != o;
      var rest := parked[1..];
      forall i | 0 <= i < |rest| ensures rest[i].order != o {
        assert parked[i + 1].order != o;
      }
      UnparkAbsent(rest, o);
      assert (parked + [Parked(o, ParkWaiting)])[1..] == rest + [Parked(o, ParkWaiting)];
    }
  }

  // The two states the cascade swings between: the order parked, and the order
  // taken out again for one line. `f` is the fallback flag.
  function ParkedForm(db: Db, o: OrderId, row: Order): Db
  {
    Put(Repair(db), o, row.(status := Queued)).(parked := db.parked + [Parked(o, ParkWaiting)])
  }

  function SearchForm(db: Db, o: OrderId, f: bool): Db
    requires o in db.orders
  {
    Put(Repair(db), o, db.orders[o].(status := Searching, etaChosen := false, fallback := f))
  }

  lemma ParksInto(db: Db, o: OrderId)
    requires Adrift(db, o)
    ensures Enqueue(SetStatus(Repair(db), o, NoDrivers), o) == ParkedForm(db, o, db.orders[o])
  {
    var none := SetStatus(Repair(db), o, NoDrivers);
    assert !IsParked(none.parked, o);
    assert none.orders[o := db.orders[o].(status := Queued)] == db.orders[o := db.orders[o].(status := Queued)];
  }

  lemma ParkingRests(db: Db, o: OrderId, row: Order)
    requires o in db.orders && row.slot == NO_ROUTE_OFFER && row.driver.None? && row.reserved.None?
    requires !IsParked(db.parked, o)
    ensures Parking(ParkedForm(db, o, row), o) == ParkedForm(db, o, row.(etaChosen := false))
  {
    hide Repair;
    RepairFrame(db);
    var p := ParkedForm(db, o, row);
    var t := Put(p, o, row.(etaChosen := false, status := Queued));
    assert p.parked[|db.parked|].order == o;
    assert IsParked(t.parked, o);
    assert t.orders == db.orders[o := row.(etaChosen := false, status := Queued)];
    forall i | 0 <= i < |db.parked| ensures db.parked[i].order != o {
      assert !IsParked(db.parked, o);
    }
    assert SetPark(p.parked, o, ParkWaiting) == p.parked;
  }

  lemma UnparksInto(db: Db, o: OrderId, f: bool)
    requires o in db.orders && db.orders[o].slot == NO_ROUTE_OFFER && !IsParked(db.parked, o)
    ensures Unparked(ParkedForm(db, o, db.orders[o].(etaChosen := false, fallback := f)), o)
         == SearchForm(db, o, f)
  {
    hide Repair, IsParked, Unpark;
    RepairFrame(db);
    UnparkAbsent(db.parked, o);
    var rest := db.orders[o].(etaChosen := false, fallback := f);
    var row := rest.(status := Searching);
    OverwriteRow(Repair(db).orders, o, rest.(status := Queued), row);
    assert ClearRoute(rest.(status := Queued)).(status := Searching) == row;
  }

  lemma OverwriteRow(orders: Orders, o: OrderId, a: Order, b: Order)
    ensures orders[o := a][o := b] == orders[o := b]
  {
  }

  // An unassigned order out of every queue, in a well-formed state.
  ghost predicate Ready(db: Db, o: OrderId)
  {
    RosterOk(db) && DistinctPositions(db.queue) && Adrift(db, o) && RowOk(db.orders[o])
  }

  lemma ReadyParts(db: Db, o: OrderId)
    requires Ready(db, o)
    ensures RosterOk(db) && DistinctPositions(db.queue) && o in db.orders && !IsParked(db.parked, o)
    ensures Unseen(db.orders[o]) && db.orders[o].slot == NO_ROUTE_OFFER && Offerable(db.orders[o])
  {
  }

  // Every state on the way looks to the probes like the state the pass began in.
  lemma FormsAlike(db: Db, o: OrderId, row: Order, parked: seq<Parked>)
    requires RosterOk(db) && DistinctPositions(db.queue)
    requires o in db.orders && Unseen(db.orders[o]) && Unseen(row)
    requires SameRequest(db.orders[o], row.(fallback := db.orders[o].fallback))
    requires db.orders[o].offerCard == row.offerCard
    ensures var x := Put(Repair(db), o, row).(parked := parked);
      && Alike(db, x, o) && Repair(x) == x
      && (forall line, excluded :: Pick(x, line, excluded) == Pick(Repair(db), line, excluded))
      && (forall line, excluded :: HasWaiting(x, line, excluded) == HasWaiting(db, line, excluded))
      && ClaimTrip(x.orders, o, x.nextOrder) == ClaimTrip(db.orders, o, db.nextOrder)
  {
    hide RepairAll, Pick, ClaimTrip, SameRequest, RosterOk, DistinctPositions;
    var x := Put(Repair(db), o, row).(parked := parked);
    RepairIdempotent(db);
    UnseenRepairs(Repair(db), x, o);
    ProbesAlike(db, x, o);
  }

  // ---------------------------------------------------------------- stuck for ever

  // The flag after one pass: the village line is left only when it is empty.
  predicate NextFlag(db: Db, o: OrderId)
    requires o in db.orders
  {
    db.orders[o].fallback || !Staffed(db, StageLine(db.orders[o]))
  }

  // A stuck order runs out of stack at every depth, always in the same state.
  lemma {:induction false} StuckNeverEnds(db: Db, o: OrderId, skip: set<DriverId>, line: Option<Line>,
                                          env: Env, depth: nat)
    requires Ready(db, o) && Stuck(db, o, env)
    requires line.Some? ==> line.value == StageLine(db.orders[o])
    ensures OfferToNextDriver(db, o, skip, line, env, depth)
         == TooDeep(if depth == 0 then db else SearchForm(db, o, NextFlag(db, o)))
    decreases depth
  {
    hide Stuck, SearchForm, NextFlag, Repair, HandleNoDriver;
    if depth > 0 {
      var next := SearchForm(db, o, NextFlag(db, o));
      StuckTurns(db, o, skip, line, env, depth);
      StuckStays(db, o, env);
      StuckNeverEnds(next, o, {}, Some(StageLine(next.orders[o])), env, depth - 1);
    }
  }

  // The next state is stuck as well, and stays what it is.
  lemma StuckStays(db: Db, o: OrderId, env: Env)
    requires Ready(db, o) && Stuck(db, o, env)
    ensures var next := SearchForm(db, o, NextFlag(db, o));
      && Ready(next, o) && Stuck(next, o, env)
      && SearchForm(next, o, NextFlag(next, o)) == next
  {
    hide Repair, HasWaiting, ClaimTrip, RosterOk, DistinctPositions, IsParked, SearchForm, Ready;
    ReadyParts(db, o);
    var f := NextFlag(db, o);
    SearchFormReady(db, o, f);
    SearchFormAlike(db, o, f);
  }

  lemma SearchFormAlike(db: Db, o: OrderId, f: bool)
    requires Ready(db, o)
    ensures var x := SearchForm(db, o, f);
      && o in x.orders
      && x.orders[o] == db.orders[o].(status := Searching, etaChosen := false, fallback := f)
      && SearchForm(x, o, f) == x
      && (forall line, excluded :: HasWaiting(x, line, excluded) == HasWaiting(db, line, excluded))
      && ClaimTrip(x.orders, o, x.nextOrder) == ClaimTrip(db.orders, o, db.nextOrder)
  {
    hide Repair, HasWaiting, ClaimTrip, RosterOk, DistinctPositions, IsParked, Ready;
    ReadyParts(db, o);
    RepairFrame(db);
    var row := db.orders[o].(status := Searching, etaChosen := false, fallback := f);
    FormsAlike(db, o, row, db.parked);
    OverwriteRow(db.orders, o, row, row);
    assert SearchForm(db, o, f) == Put(Repair(db), o, row).(parked := db.parked);
  }

  lemma SearchFormReady(db: Db, o: OrderId, f: bool)
    requires Ready(db, o)
    ensures Ready(SearchForm(db, o, f), o)
  {
    hide RepairAll;
    RepairDoes(db);
  }

  // One pass of the circle ends in the recursive call on the next state.
  lemma StuckTurns(db: Db, o: OrderId, skip: set<DriverId>, line: Option<Line>, env: Env, depth: nat)
    requires Ready(db, o) && Stuck(db, o, env)
    requires line.Some? ==> line.value == StageLine(db.orders[o])
    requires depth > 0
    ensures var next := SearchForm(db, o, NextFlag(db, o));
      var inner := OfferToNextDriver(next, o, {}, Some(StageLine(next.orders[o])), env, depth - 1);
      var outer := OfferToNextDriver(db, o, skip, line, env, depth);
      outer == if inner.TooDeep? then inner else Done(inner.db, false)
  {
    hide OfferToNextDriver, HandleNoDriver, ParkAndNotify, Fallback, Repair, RosterOk, DistinctPositions;
    RepairFrame(db);
    ReadyParts(db, o);
    OfferSkips(db, o, skip, line, env, depth);
    HandleParks(db, o, env, depth - 1);
    NobodyNotified(db, o, env, depth - 1);
    FallsBack(db, o, env, depth - 1);
  }

  lemma OfferSkips(db: Db, o: OrderId, skip: set<DriverId>, line: Option<Line>, env: Env, depth: nat)
    requires Ready(db, o)
    requires !Willing(db, o, StageLine(db.orders[o]))
    requires line.Some? ==> line.value == StageLine(db.orders[o])
    requires depth > 0
    ensures var h := HandleNoDriver(Repair(db), o, env, depth - 1);
      OfferToNextDriver(db, o, skip, line, env, depth) == if h.TooDeep? then h else Done(h.db, false)
  {
    hide HandleNoDriver, Repair, Pick, Eligible, RosterOk, DistinctPositions;
    ReadyParts(db, o);
    RepairFrame(db);
    var target, mid := StageLine(db.orders[o]), Repair(db);
    assert RosterOk(mid) by { RepairDoes(db); }
    PickIsFirst(mid, target, db.orders[o].notes.declined + skip);
    PickIsFirst(mid, target, db.orders[o].notes.declined);
    forall d | Eligible(mid, target, db.orders[o].notes.declined + skip, d)
      ensures Eligible(mid, target, db.orders[o].notes.declined, d)
    {
      FewerExcluded(mid, target, db.orders[o].notes.declined, skip, d);
    }
    assert Pick(mid, target, db.orders[o].notes.declined + skip).None?;
  }

  lemma FewerExcluded(db: Db, line: Line, excluded: set<DriverId>, more: set<DriverId>, d: DriverId)
    requires Eligible(db, line, excluded + more, d)
    ensures Eligible(db, line, excluded, d)
  {
  }

  lemma HandleParks(db: Db, o: OrderId, env: Env, depth: nat)
    requires Ready(db, o)
    requires !Willing(db, o, StageLine(db.orders[o]))
    requires db.orders[o].request.byDispatcher || !(db.orders[o].request.delivery || db.orders[o].notes.chatReason)
    ensures HandleNoDriver(Repair(db), o, env, depth)
         == ParkAndNotify(ParkedForm(db, o, db.orders[o]), o, env, depth)
  {
    hide ParkAndNotify, Repair, HasWaiting, StageLine;
    ReadyParts(db, o);
    RepairFrame(db);
    RepairIdempotent(db);
    FormsAlike(db, o, db.orders[o], db.parked);
    assert Put(Repair(db), o, db.orders[o]).(parked := db.parked) == Repair(db) by {
      assert db.orders[o := db.orders[o]] == db.orders;
    }
    ParksInto(db, o);
  }

  lemma NobodyNotified(db: Db, o: OrderId, env: Env, depth: nat)
    requires Ready(db, o)
    requires RouteCity(db.orders[o]).Some?
    requires Staffed(db, StageLine(db.orders[o])) || db.orders[o].fallback || !RouteOfferPossible(db, o, env)
    ensures var p := ParkedForm(db, o, db.orders[o]);
      ParkAndNotify(p, o, env, depth) == Fallback(p, o, true, env, depth)
  {
    hide Fallback, Repair, HasWaiting, ClaimTrip, ParkedForm, RosterOk, DistinctPositions, Ready, IsParked;
    ReadyParts(db, o);
    ParkedFormRow(db, o, db.orders[o]);
    ParkedFormAlike(db, o, db.orders[o]);
  }

  lemma FallsBack(db: Db, o: OrderId, env: Env, depth: nat)
    requires Ready(db, o)
    requires RouteCity(db.orders[o]).Some?
    requires Staffed(db, StageLine(db.orders[o])) || (!db.orders[o].fallback && Staffed(db, Gorno))
    ensures var next := SearchForm(db, o, NextFlag(db, o));
      Fallback(ParkedForm(db, o, db.orders[o]), o, true, env, depth)
        == OfferToNextDriver(next, o, {}, Some(StageLine(next.orders[o])), env, depth)
  {
    hide OfferToNextDriver, Repair, HasWaiting, Parking, Unparked, EnterFallback, RosterOk, DistinctPositions;
    hide ParkedForm, SearchForm, Ready, IsParked;
    ReadyParts(db, o);
    var row := db.orders[o];
    ParkedFormRow(db, o, row);
    ParkingRests(db, o, row);
    ParkedFormRow(db, o, row.(etaChosen := false));
    ParkedFormAlike(db, o, row.(etaChosen := false));
    SearchFormAlike(db, o, NextFlag(db, o));
    if row.fallback || !Staffed(db, StageLine(row)) {
      EntersFallback(db, o, env, depth);
    } else {
      UnparksInto(db, o, false);
    }
  }

  lemma EntersFallback(db: Db, o: OrderId, env: Env, depth: nat)
    requires Ready(db, o) && Staffed(db, Gorno)
    ensures EnterFallback(ParkedForm(db, o, db.orders[o].(etaChosen := false)), o, env, depth)
         == OfferToNextDriver(SearchForm(db, o, true), o, {}, Some(Gorno), env, depth)
  {
    hide OfferToNextDriver, Repair, HasWaiting, Parking, Unparked, RosterOk, DistinctPositions;
    hide ParkedForm, SearchForm, Ready, IsParked;
    ReadyParts(db, o);
    var row := db.orders[o].(etaChosen := false);
    ParkedFormRow(db, o, row);
    ParkedFormAlike(db, o, row.(fallback := true));
    ParkedFormFlag(db, o, row);
    UnparksInto(db, o, true);
  }

  lemma ParkedFormRow(db: Db, o: OrderId, row: Order)
    ensures var p := ParkedForm(db, o, row);
      && o in p.orders && p.orders[o] == row.(status := Queued) && p.parked == db.parked + [Parked(o, ParkWaiting)]
  {
  }

  lemma ParkedFormFlag(db: Db, o: OrderId, row: Order)
    ensures var p := ParkedForm(db, o, row);
      o in p.orders
      && Put(p, o, p.orders[o].(fallback := true)) == ParkedForm(db, o, row.(fallback := true))
  {
    hide Repair;
    var p := ParkedForm(db, o, row);
    assert p.orders[o := row.(status := Queued, fallback := true)]
        == Repair(db).orders[o := row.(status := Queued, fallback := true)];
  }

  lemma ParkedFormAlike(db: Db, o: OrderId, row: Order)
    requires RosterOk(db) && DistinctPositions(db.queue)
    requires o in db.orders && Unseen(db.orders[o]) && Unseen(row)
    requires SameRequest(db.orders[o], row.(fallback := db.orders[o].fallback))
    requires db.orders[o].offerCard == row.offerCard
    ensures var p := ParkedForm(db, o, row);
      && Repair(p) == p
      && (forall line, excluded :: HasWaiting(p, line, excluded) == HasWaiting(db, line, excluded))
      && ClaimTrip(p.orders, o, p.nextOrder) == ClaimTrip(db.orders, o, db.nextOrder)
  {
    hide Repair, HasWaiting, ClaimTrip, RosterOk, DistinctPositions;
    FormsAlike(db, o, row.(status := Queued), db.parked + [Parked(o, ParkWaiting)]);
  }

  // ---------------------------------------------------------------- the other half

  // Two frames of stack are enough for every order that is not stuck.
  lemma UnstuckEnds(db: Db, o: OrderId, skip: set<DriverId>, line: Option<Line>, env: Env, depth: nat)
    requires Ready(db, o) && !Stuck(db, o, env)
    requires line.Some? ==> line.value == StageLine(db.orders[o])
    requires depth >= 2
    ensures OfferToNextDriver(db, o, skip, line, env, depth).Done?
  {
    hide OfferToNextDriver, HandleNoDriver, ParkAndNotify, Repair, HasWaiting, Ready, ClaimTrip;
    ReadyParts(db, o);
    var row := db.orders[o];
    if Willing(db, o, StageLine(row)) {
      WillingEnds(db, o, skip, line, env, depth);
    } else {
      OfferSkips(db, o, skip, line, env, depth);
      if row.request.byDispatcher || !(row.request.delivery || row.notes.chatReason) {
        HandleParks(db, o, env, depth - 1);
        if RouteCity(row).None? {
          OrdinaryParks(db, o, env, depth - 1);
        } else {
          VillageEnds(db, o, env, depth - 1);
        }
      } else {
        ChatEnds(db, o, env, depth - 1);
      }
    }
  }

  // Whoever stands eligible when the search begins ends it, at the latest in
  // the second look of the no-driver step.
  lemma WillingEnds(db: Db, o: OrderId, skip: set<DriverId>, line: Option<Line>, env: Env, depth: nat)
    requires Ready(db, o) && Willing(db, o, StageLine(db.orders[o]))
    requires line.Some? ==> line.value == StageLine(db.orders[o])
    requires depth >= 1 && (skip == {} || depth >= 2)
    ensures OfferToNextDriver(db, o, skip, line, env, depth).Done?
  {
    hide Repair, Ready, Eligible, Pick, RosterOk, DistinctPositions, ParkAndNotify;
    ReadyParts(db, o);
    RepairFrame(db);
    RepairIdempotent(db);
    var target, mid := StageLine(db.orders[o]), Repair(db);
    assert RosterOk(mid) by { RepairDoes(db); }
    PickIsFirst(mid, target, db.orders[o].notes.declined);
    PickIsFirst(mid, target, db.orders[o].notes.declined + skip);
    var d := Pick(mid, target, db.orders[o].notes.declined);
    assert skip == {} ==> db.orders[o].notes.declined + skip == db.orders[o].notes.declined;
    var e := Pick(mid, target, db.orders[o].notes.declined + skip);
    if e.Some? {
    } else {
      assert skip != {};
      assert db.orders[o].notes.declined + {} == db.orders[o].notes.declined;
      assert OfferToNextDriver(mid, o, {}, None, env, depth - 1).Done?;
      assert HasEligible(mid, o);
      assert HandleNoDriver(mid, o, env, depth - 1).Done?;
    }
  }

  lemma ChatEnds(db: Db, o: OrderId, env: Env, depth: nat)
    requires Ready(db, o) && !Willing(db, o, StageLine(db.orders[o]))
    requires !db.orders[o].request.byDispatcher
    requires db.orders[o].request.delivery || db.orders[o].notes.chatReason
    ensures HandleNoDriver(Repair(db), o, env, depth).Done?
  {
    hide Repair, HasWaiting, Ready;
    ReadyParts(db, o);
    RepairFrame(db);
    RepairIdempotent(db);
    FormsAlike(db, o, db.orders[o], db.parked);
    assert Put(Repair(db), o, db.orders[o]).(parked := db.parked) == Repair(db) by {
      assert db.orders[o := db.orders[o]] == db.orders;
    }
  }

  lemma OrdinaryParks(db: Db, o: OrderId, env: Env, depth: nat)
    requires Ready(db, o) && RouteCity(db.orders[o]).None?
    ensures ParkAndNotify(ParkedForm(db, o, db.orders[o]), o, env, depth).Done?
  {
    hide Repair, HasWaiting, Ready, Fallback, ParkedForm;
    ReadyParts(db, o);
    ParkedFormRow(db, o, db.orders[o]);
  }

  lemma VillageEnds(db: Db, o: OrderId, env: Env, depth: nat)
    requires Ready(db, o) && !Stuck(db, o, env) && RouteCity(db.orders[o]).Some?
    requires !Willing(db, o, StageLine(db.orders[o]))
    requires db.orders[o].request.byDispatcher
          || !(db.orders[o].request.delivery || db.orders[o].notes.chatReason)
    requires depth >= 1
    ensures ParkAndNotify(ParkedForm(db, o, db.orders[o]), o, env, depth).Done?
  {
    hide Repair, HasWaiting, Ready, Fallback, ParkedForm, ClaimTrip, ParkAndNotify;
    ReadyParts(db, o);
    var row := db.orders[o];
    if !row.fallback && RouteOfferPossible(db, o, env) {
      RouteOfferEnds(db, o, env, depth);
    } else {
      NobodyNotified(db, o, env, depth);
      FallbackEnds(db, o, env, depth);
    }
  }

  lemma RouteOfferEnds(db: Db, o: OrderId, env: Env, depth: nat)
    requires Ready(db, o) && RouteCity(db.orders[o]).Some?
    requires !Staffed(db, StageLine(db.orders[o])) && !db.orders[o].fallback
    requires RouteOfferPossible(db, o, env)
    ensures ParkAndNotify(ParkedForm(db, o, db.orders[o]), o, env, depth).Done?
  {
    hide Repair, HasWaiting, Ready, Fallback, ParkedForm, ClaimTrip, RosterOk, DistinctPositions;
    ReadyParts(db, o);
    ParkedFormRow(db, o, db.orders[o]);
    ParkedFormAlike(db, o, db.orders[o]);
  }

  lemma FallbackEnds(db: Db, o: OrderId, env: Env, depth: nat)
    requires Ready(db, o) && RouteCity(db.orders[o]).Some?
    requires !Staffed(db, StageLine(db.orders[o]))
    requires db.orders[o].fallback || !Staffed(db, Gorno) || Willing(db, o, Gorno)
    requires depth >= 1
    ensures Fallback(ParkedForm(db, o, db.orders[o]), o, true, env, depth).Done?
  {
    hide OfferToNextDriver, Repair, HasWaiting, Parking, Unparked, EnterFallback, RosterOk, DistinctPositions;
    hide ParkedForm, Ready, IsParked;
    ReadyParts(db, o);
    var row := db.orders[o];
    ParkedFormRow(db, o, row);
    ParkingRests(db, o, row);
    ParkedFormRow(db, o, row.(etaChosen := false));
    ParkedFormAlike(db, o, row.(etaChosen := false));
    if Staffed(db, Gorno) {
      EntersFallback(db, o, env, depth);
      SearchFormReady(db, o, true);
      SearchFormAlike(db, o, true);
      WillingEnds(SearchForm(db, o, true), o, {}, Some(Gorno), env, depth);
    } else {
      GornoEmpty(db, o, env, depth);
    }
  }

  lemma GornoEmpty(db: Db, o: OrderId, env: Env, depth: nat)
    requires Ready(db, o) && !Staffed(db, Gorno)
    ensures EnterFallback(ParkedForm(db, o, db.orders[o].(etaChosen := false)), o, env, depth).Done?
  {
    hide OfferToNextDriver, Repair, HasWaiting, RosterOk, DistinctPositions, ParkedForm, Ready, IsParked;
    ReadyParts(db, o);
    var row := db.orders[o].(etaChosen := false);
    ParkedFormRow(db, o, row);
    ParkedFormAlike(db, o, row.(fallback := true));
    ParkedFormFlag(db, o, row);
  }

  // The cascade ends exactly for the orders that are not stuck.
  lemma CascadeEndsIffNotStuck(db: Db, o: OrderId, skip: set<DriverId>, line: Option<Line>,
                               env: Env, depth: nat)
    requires Inv(db) && Adrift(db, o)
    requires line.Some? ==> line.value == StageLine(db.orders[o])
    requires depth >= 2
    ensures OfferToNextDriver(db, o, skip, line, env, depth).Done? <==> !Stuck(db, o, env)
  {
    hide OfferToNextDriver, Stuck;
    if Stuck(db, o, env) {
      StuckNeverEnds(db, o, skip, line, env, depth);
    } else {
      UnstuckEnds(db, o, skip, line, env, depth);
    }
  }
}
