// When the opportunity check sends a driver on a trip a card, and why the card then
// lies there to the end of the transaction.
module Sending {
  import opened Options
  import opened DispatchState
  import opened OrderTable
  import opened DriverLine
  import opened Cascade
  import opened CascadeInv
  import opened CascadeDepth
  import opened Frames
  import opened PassengerQueue
  import opened Transactions
  import opened Trips
  import opened Handoff
  import opened Asking
  import opened Wedging

  // One of the requests passed over gets a card for driver d.
  predicate Sends(db: Db, waiting: seq<OrderId>, d: DriverId, env: Env)
    decreases |waiting|
  {
    waiting != [] &&
    if waiting[0] !in db.orders then Sends(db, waiting[1..], d, env)
    else
      var mid := Repair(db);
      var r := PassedOver(mid, waiting[0], env);
      !Acts(mid, waiting[0], env)
      && (r.orders[waiting[0]].slot.driver == Some(d) || Sends(r, waiting[1..], d, env))
  }

  predicate CheckSends(db: Db, d: DriverId, env: Env)
  {
    var polled := With(db.parked, Polling);
    var mid := if polled == [] then db else Repair(db);
    var parked := if polled == [] then db.parked else PausePrompts(db.parked, None);
    !(polled != [] && PromptsStand(mid, polled))
    && Sends(mid.(parked := parked), With(parked, ParkWaiting), d, env)
  }

  // ---------------------------------------------------------------- who gets no card

  lemma ReadyOf(db: Db, o: OrderId, e: Option<DriverId>)
    requires InvDuring(db, e) && Adrift(db, o)
    ensures Ready(db, o)
  {
  }

  // A line with somebody waiting sends no card, however deep the stack.
  lemma StaffedNoCard(db: Db, o: OrderId, line: Option<Line>, env: Env, depth: nat)
    requires Ready(db, o) && Staffed(db, StageLine(db.orders[o]))
    requires (line.Some? ==> line.value == StageLine(db.orders[o]))
    ensures var r := OfferToNextDriver(db, o, {}, line, env, depth).db;
      o in r.orders && r.orders[o].slot == NO_ROUTE_OFFER
  {
    hide HandleNoDriver, ParkAndNotify, Repair, HasWaiting, Ready, ClaimTrip, Pick;
    ReadyParts(db, o);
    var row := db.orders[o];
    if depth == 0 {
    } else if Willing(db, o, StageLine(row)) {
      WillingAsks(db, o, line, env, depth);
    } else if Stuck(db, o, env) {
      StuckNeverEnds(db, o, {}, line, env, depth);
      SearchFormAlike(db, o, NextFlag(db, o));
    } else {
      OfferSkips(db, o, {}, line, env, depth);
      if ForChat(row) { ChatNoCard(db, o, env, depth - 1); }
      else {
        HandleParks(db, o, env, depth - 1);
        OrdinaryNoCard(db, o, env, depth - 1);
      }
    }
  }

  lemma ChatNoCard(db: Db, o: OrderId, env: Env, depth: nat)
    requires Ready(db, o) && !Willing(db, o, StageLine(db.orders[o])) && ForChat(db.orders[o])
    ensures var r := HandleNoDriver(Repair(db), o, env, depth).db; o in r.orders && r.orders[o].slot == NO_ROUTE_OFFER
  {
    hide Repair, HasWaiting, Ready;
    ReadyParts(db, o);
    RepairFrame(db);
    RepairIdempotent(db);
    FormsAlike(db, o, db.orders[o], db.parked);
    assert Put(Repair(db), o, db.orders[o]).(parked := db.parked) == Repair(db) by {
      assert db.orders[o := db.orders[o]] == db.orders;
    }
  }

  lemma OrdinaryNoCard(db: Db, o: OrderId, env: Env, depth: nat)
    requires Ready(db, o) && RouteCity(db.orders[o]).None?
    ensures var r := ParkAndNotify(ParkedForm(db, o, db.orders[o]), o, env, depth).db;
      o in r.orders && r.orders[o].slot == NO_ROUTE_OFFER
  {
    hide Repair, HasWaiting, Ready, Fallback, ParkedForm, ClaimTrip;
    ReadyParts(db, o);
    ParkedFormRow(db, o, db.orders[o]);
    ParkedFormAlike(db, o, db.orders[o]);
  }

  lemma QueuedIsUnseen(db: Db, a: OrderId)
    requires Inv(db) && a in db.orders && db.orders[a].status == Queued
    ensures Unseen(db.orders[a]) && Candidate(db.orders[a].status) && RowOk(db.orders[a]) && RosterOk(db)
    ensures DistinctPositions(db.queue)
  {
    assert RowOk(db.orders[a]);
  }

  // Handed out to a waiting driver, an order has no card.
  lemma GivenOutNoCard(mid: Db, a: OrderId, env: Env, depth: nat)
    requires Inv(mid) && a in mid.orders && mid.orders[a].status == Queued && DriverInReach(mid, a)
    ensures var r := GivenOut(mid, a, env, depth).db;
      a in r.orders && (RowOk(r.orders[a]) ==> r.orders[a].slot.driver.None?)
  {
    hide InvDuring, Moves, OfferToNextDriver, HasWaiting, Repair, Adrift, Ready;
    QueuedIsUnseen(mid, a);
    var row := mid.orders[a];
    var u := Unparked(mid, a);
    UnparkedKeeps(mid, a, None);
    ReadyOf(u, a, None);
    var line := if RouteCity(row).Some? then Some(StageLine(row)) else None;
    if RouteCity(row).Some? {
      UnparkedProbes(mid, a);
      StaffedNoCard(u, a, line, env, depth);
    } else {
      OfferKeeps(u, a, {}, line, env, depth, None);
      SameTown(u, OfferToNextDriver(u, a, {}, line, env, depth).db, a);
    }
  }

  lemma UnparkedProbes(mid: Db, a: OrderId)
    requires a in mid.orders && Unseen(mid.orders[a])
    ensures forall line :: Staffed(Unparked(mid, a), line) == Staffed(mid, line)
    ensures forall line :: HasWaiting(Parking(mid, a), line, {}) == HasWaiting(mid, line, {})
  {
    hide Repair, HasWaiting, ClaimTrip, Unpark, IsParked, SetPark;
    var u, p := Unparked(mid, a), Parking(mid, a);
    assert u.orders == mid.orders[a := u.orders[a]];
    assert p.orders == mid.orders[a := p.orders[a]];
    UnseenRepairs(mid, u, a);
    UnseenRepairs(mid, p, a);
    ProbesAlike(mid, u, a);
    ProbesAlike(mid, p, a);
  }

  lemma SameTown(u: Db, r: Db, a: OrderId)
    requires Moves(u, r, a)
    ensures a in r.orders && RouteCity(r.orders[a]) == RouteCity(u.orders[a])
  {
  }

  // Falling back, it has none either.
  lemma FallsNoCard(mid: Db, a: OrderId, env: Env, depth: nat)
    requires Inv(mid) && a in mid.orders && mid.orders[a].status == Queued && !DriverInReach(mid, a)
    requires RouteCity(mid.orders[a]).Some? && !mid.orders[a].fallback
    ensures var r := Fallback(mid, a, true, env, depth).db;
      a in r.orders && (RowOk(r.orders[a]) ==> r.orders[a].slot.driver.None?)
  {
    hide InvDuring, EnterFallback, Parking, HasWaiting, Repair, Moves;
    QueuedIsUnseen(mid, a);
    UnparkedProbes(mid, a);
    var p := Parking(mid, a);
    ParkingKeeps(mid, a, None);
    RepairFrame(p);
    RepairKeeps(p, None, a);
    FlagFirst(Repair(p), a, env, depth, None);
  }

  // A request acted upon gets no card.
  lemma ActedNoCard(mid: Db, q: OrderId, d: DriverId, env: Env, depth: nat)
    requires Inv(mid) && Repair(mid) == mid && q in mid.orders && mid.orders[q].status == Queued && Acts(mid, q, env)
    requires mid.orders[q].slot.driver != Some(d)
    ensures var s := ServeOne(mid, q, env, depth);
      && s.Acted? && q in s.result.db.orders
      && (RowOk(s.result.db.orders[q]) ==> s.result.db.orders[q].slot.driver != Some(d))
  {
    hide InvDuring, Repair, HasWaiting, ClaimTrip, Fallback, GivenOut, RowOk, AsksFirst;
    QueuedIsUnseen(mid, q);
    SlotWhole(mid.orders[q]);
    if DriverInReach(mid, q) { GivenOutNoCard(mid, q, env, depth); }
    else { FallsNoCard(mid, q, env, depth); }
  }

  lemma SlotWhole(row: Order)
    requires RowOk(row)
    ensures row.slot.driver.Some? ==>
              row.slot.trip.Some? && Candidate(row.status) && !row.fallback && RouteCity(row).Some?
  {
  }

  // ---------------------------------------------------------------- exactly who gets one

  ghost predicate NoCards(db: Db, d: DriverId) { Inv(db) && NoSlotOf(db.orders, d) }

  // Where no card of the driver was open before, one is afterwards if and only if a
  // request passed over gets it.
  lemma {:induction false} SendsIff(db: Db, waiting: seq<OrderId>, d: DriverId, env: Env, depth: nat)
    requires NoCards(db, d) && AllQueued(db, waiting) && Distinct(waiting)
    ensures NoSlotOf(Serve(db, waiting, env, depth).db.orders, d) <==> !Sends(db, waiting, d, env)
    decreases |waiting|
  {
    hide InvDuring, Calm, Repair, ServeOne, Acts, PassedOver, RowOk;
    if waiting != [] {
      var mid, q := Repair(db), waiting[0];
      assert q in waiting && q in db.orders && db.orders[q].status == Queued;
      RepairCalm(db, None);
      RepairFrame(db);
      RosterPart(db, None);
      RepairIdempotent(db);
      ActsIs(mid, q, env, depth);
      ServeOneKeeps(mid, q, env, depth, None);
      ServedAlone(mid, q, env, depth);
      if Acts(mid, q, env) {
        ActedNoCard(mid, q, d, env, depth);
        RowOfInv(ServeOne(mid, q, env, depth).result.db, q);
      } else {
        var r := PassedOver(mid, q, env);
        PassedRest(mid, r, waiting, env, depth, None);
        if r.orders[q].slot.driver == Some(d) { ServeRest(r, waiting[1..], q, env, depth); }
        else { SendsIff(r, waiting[1..], d, env, depth); }
      }
    }
  }

  lemma RowOfInv(db: Db, q: OrderId)
    requires Inv(db) && q in db.orders
    ensures RowOk(db.orders[q])
  {
  }

  lemma CheckSendsIff(db: Db, d: DriverId, env: Env, depth: nat)
    requires NoCards(db, d)
    ensures NoSlotOf(TryPromote(db, env, depth).db.orders, d) <==> !CheckSends(db, d, env)
  {
    hide InvDuring, Calm, Repair, Serve, With, PromptsStand, AllQueued, Distinct, Sends;
    RepairCalm(db, None);
    RepairFrame(db);
    var polled := With(db.parked, Polling);
    var mid := if polled == [] then db else Repair(db);
    if !(polled != [] && PromptsStand(mid, polled)) {
      var parked := if polled == [] then mid.parked else PausePrompts(mid.parked, None);
      var q := mid.(parked := parked);
      assert polled == [] ==> q == mid;
      PauseKeeps(mid, None, None);
      ParkedQueued(q, None, ParkWaiting);
      SendsIff(q, With(parked, ParkWaiting), d, env, depth);
    }
  }

  // ---------------------------------------------------------------- the card rests

  // An order with a card that no driver is in reach of.
  ghost predicate Resting(db: Db, q: OrderId)
  {
    && q in db.orders && Carded(db.orders[q]) && Unseen(db.orders[q]) && RouteCity(db.orders[q]).Some?
    && !DriverInReach(db, q)
  }

  lemma RestingParts(db: Db, q: OrderId)
    requires Resting(db, q)
    ensures q in db.orders && Quiet(db, q) && Carded(db.orders[q]) && Unseen(db.orders[q])
  {
  }

  lemma RestsOn(a: Db, b: Db, q: OrderId)
    requires Resting(a, q) && q in b.orders && b.orders[q] == a.orders[q] && FewerWait(a, b)
    ensures Resting(b, q)
  {
    hide HasWaiting;
  }

  // A request that gets a card on being passed over has nobody in reach.
  lemma PassedRests(mid: Db, q: OrderId, env: Env)
    requires Steady(mid) && Repair(mid) == mid && q in mid.orders && mid.orders[q].status == Queued
    requires !Acts(mid, q, env)
    requires PassedOver(mid, q, env).orders[q].slot.driver.Some?
    ensures Resting(PassedOver(mid, q, env), q)
  {
    hide Repair, HasWaiting, ClaimTrip, RosterOk, DistinctPositions;
    hide DriverInReach, TripInReach, FreeDriverHasPriority, RowOk;
    var r := PassedOver(mid, q, env);
    PassedSteady(mid, q, env);
    PassedSlot(mid, q, env);
    if r != mid {
      UnseenRepairs(mid, r, q);
      ProbesAlike(mid, r, q);
      ReachAlike(mid, r, q);
    }
  }

  lemma PassedSlot(mid: Db, q: OrderId, env: Env)
    requires Repair(mid) == mid && q in mid.orders && mid.orders[q].status == Queued && !Acts(mid, q, env)
    requires RowOk(mid.orders[q]) && RowOk(PassedOver(mid, q, env).orders[q])
    requires PassedOver(mid, q, env).orders[q].slot.driver.Some?
    ensures var r := PassedOver(mid, q, env);
      && r == Put(mid, q, mid.orders[q].(slot := r.orders[q].slot))
      && Carded(r.orders[q]) && Unseen(mid.orders[q]) && RouteCity(r.orders[q]).Some? && !DriverInReach(mid, q)
  {
    hide Repair, HasWaiting, ClaimTrip, DriverInReach;
    var r := PassedOver(mid, q, env);
    assert mid.orders[q := mid.orders[q]] == mid.orders;
  }

  lemma ReachAlike(mid: Db, r: Db, q: OrderId)
    requires q in mid.orders && q in r.orders && r.orders[q].request == mid.orders[q].request
    requires r.orders[q].notes == mid.orders[q].notes && r.orders[q].fallback == mid.orders[q].fallback
    requires forall line, excluded :: HasWaiting(r, line, excluded) == HasWaiting(mid, line, excluded)
    ensures DriverInReach(r, q) == DriverInReach(mid, q)
  {
    hide HasWaiting;
  }

  // ---------------------------------------------------------------- nobody new waits

  // A parked request in a state whose queue needs no repair.
  ghost predicate Settled(mid: Db, q: OrderId)
  {
    && RosterOk(mid) && DistinctPositions(mid.queue) && Repair(mid) == mid
    && q in mid.orders && RowOk(mid.orders[q]) && mid.orders[q].status == Queued
  }

  lemma SettledParts(mid: Db, q: OrderId)
    requires Settled(mid, q)
    ensures q in mid.orders && Level(mid, q) && Unseen(mid.orders[q]) && Repair(mid) == mid
    ensures mid.orders[q].status == Queued
    ensures mid.orders[q].reserved.None? && mid.orders[q].driver.None? && Candidate(mid.orders[q].status)
  {
  }

  // The same request in another form: fewer wait, and nothing is to be repaired.
  lemma FormRests(mid: Db, q: OrderId, row: Order, parked: seq<Parked>)
    requires Settled(mid, q) && Unseen(row) && mid.orders[q].offerCard == row.offerCard
    requires SameRequest(mid.orders[q], row.(fallback := mid.orders[q].fallback))
    ensures var x := Put(mid, q, row).(parked := parked);
      && FewerWait(mid, x) && Repair(x) == x && (RowOk(row) && row.status == Queued ==> Settled(x, q))
  {
    hide Repair, HasWaiting, SameRequest, RowOk, FewerWait;
    assert Unseen(mid.orders[q]) by { SettledParts(mid, q); }
    var x := Put(mid, q, row).(parked := parked);
    FormFewer(mid, q, row, parked, x);
    UnseenRepairs(mid, x, q);
    RepairFrame(x);
    RepairFrame(mid);
    assert x == x.(queue := x.queue);
  }

  // Handed to its line, in any stage.
  lemma HandFewer(x: Db, q: OrderId, line: Option<Line>, env: Env, depth: nat)
    requires Settled(x, q) && depth >= 2 && (line.Some? ==> line.value == StageLine(x.orders[q]))
    requires OfferToNextDriver(Unparked(x, q), q, {}, line, env, depth).Done?
    ensures FewerWait(x, OfferToNextDriver(Unparked(x, q), q, {}, line, env, depth).db)
  {
    hide Repair, OfferToNextDriver, FewerWait, Ready, Settled, RowOk, Unpark, HasWaiting;
    SettledParts(x, q);
    HandedOut(x, q);
    var u := Unparked(x, q);
    FormRests(x, q, u.orders[q], u.parked);
    CascadeFewer(u, q, line, env, depth);
    FewerThen(x, u, OfferToNextDriver(u, q, {}, line, env, depth).db);
  }

  lemma EnterFewer(x: Db, q: OrderId, env: Env, depth: nat)
    requires Settled(x, q) && depth >= 2 && x.orders[q].slot.driver.None? && EnterFallback(x, q, env, depth).Done?
    ensures FewerWait(x, EnterFallback(x, q, env, depth).db)
  {
    hide Repair, OfferToNextDriver, FewerWait, HasWaiting, Level, Unparked, RosterOk, DistinctPositions;
    SettledParts(x, q);
    FlaggedLevel(x, q);
    var f := Put(x, q, x.orders[q].(fallback := true));
    assert f == f.(parked := x.parked);
    FormRests(x, q, f.orders[q], x.parked);
    if HasWaiting(f, Gorno, {}) {
      HandFewer(f, q, Some(Gorno), env, depth);
      FewerThen(x, f, EnterFallback(x, q, env, depth).db);
    }
  }

  lemma FallFewer(mid: Db, q: OrderId, env: Env, depth: nat)
    requires Settled(mid, q) && depth >= 2 && Fallback(mid, q, true, env, depth).Done?
    ensures FewerWait(mid, Fallback(mid, q, true, env, depth).db)
  {
    hide Repair, OfferToNextDriver, FewerWait, HasWaiting, Unparked, EnterFallback, Settled, Parking, RowOk, RosterOk;
    SettledParts(mid, q);
    ParkedLevel(mid, q);
    var p := Parking(mid, q);
    ParkingForm(mid, q);
    FormRests(mid, q, p.orders[q], p.parked);
    var city := RouteCity(mid.orders[q]);
    if city.Some? && !mid.orders[q].fallback && HasWaiting(p, VillageLine(city.value), {}) {
      HandFewer(p, q, Some(VillageLine(city.value)), env, depth);
    } else {
      EnterFewer(p, q, env, depth);
    }
    FewerThen(mid, p, Fallback(mid, q, true, env, depth).db);
  }

  lemma ParkingForm(mid: Db, q: OrderId)
    requires q in mid.orders && mid.orders[q].driver.None? && mid.orders[q].reserved.None?
    ensures var p := Parking(mid, q);
      && p == Put(mid, q, p.orders[q]).(parked := p.parked)
      && p.orders[q] == ClearRoute(mid.orders[q]).(etaChosen := false, status := Queued)
  {
    hide SetPark;
    var row := ClearRoute(mid.orders[q]).(driver := None, reserved := None, etaChosen := false, status := Queued);
    assert mid.orders[q := row][q := row] == mid.orders[q := row];
  }

  lemma ServedFewer(mid: Db, q: OrderId, env: Env, depth: nat)
    requires Settled(mid, q) && depth >= 2 && Acts(mid, q, env) && ServeOne(mid, q, env, depth).result.Done?
    ensures FewerWait(mid, ServeOne(mid, q, env, depth).result.db)
  {
    hide Repair, OfferToNextDriver, FewerWait, HasWaiting, Unparked, Fallback, Settled, RowOk, DriverInReach, ClaimTrip;
    SettledParts(mid, q);
    var row := mid.orders[q];
    if DriverInReach(mid, q) {
      if AsksFirst(row, q, env) {
        assert mid.orders[q := row] == mid.orders;
        FormRests(mid, q, row, SetPark(mid.parked, q, Polling));
      } else {
        HandFewer(mid, q, if RouteCity(row).Some? then Some(StageLine(row)) else None, env, depth);
      }
    } else {
      assert TripInReach(mid, q) ==> NotifyBusyDrivers(mid, q, env).db == mid;
      FallFewer(mid, q, env, depth);
    }
  }

  lemma {:induction false} ServeFewer(db: Db, waiting: seq<OrderId>, env: Env, depth: nat)
    requires Steady(db) && AllQueued(db, waiting) && Distinct(waiting) && depth >= 2
    requires Serve(db, waiting, env, depth).Done?
    ensures FewerWait(db, Serve(db, waiting, env, depth).db)
    decreases |waiting|
  {
    hide Steady, Repair, ServeOne, Acts, PassedOver, FewerWait;
    if waiting == [] {
      NobodyNew(db);
    } else {
      var mid, q := Repair(db), waiting[0];
      assert q in waiting && q in db.orders && db.orders[q].status == Queued;
      RepairedSteady(db);
      RepairFrame(db);
      SettledOf(db, q);
      RepairFewer(db) by { assert Steady(db); SteadyRoster(db); }
      ActsIs(mid, q, env, depth);
      if Acts(mid, q, env) {
        ServedFewer(mid, q, env, depth);
        FewerThen(db, mid, ServeOne(mid, q, env, depth).result.db);
      } else {
        var r := PassedOver(mid, q, env);
        PassedSteady(mid, q, env);
        PassedRest(mid, r, waiting, env, depth, None);
        PassedFewer(mid, q, env);
        ServeFewer(r, waiting[1..], env, depth);
        FewerThen(db, mid, r);
        FewerThen(db, r, Serve(r, waiting[1..], env, depth).db);
      }
    }
  }

  lemma NobodyNew(db: Db)
    ensures FewerWait(db, db)
  {
  }

  lemma SteadyRoster(db: Db)
    requires Steady(db)
    ensures RosterOk(db) && DistinctPositions(db.queue)
  {
  }

  lemma SettledOf(db: Db, q: OrderId)
    requires Steady(db) && Steady(Repair(db)) && Repair(Repair(db)) == Repair(db) && Repair(db).orders == db.orders
    requires q in db.orders && db.orders[q].status == Queued
    ensures Settled(Repair(db), q)
  {
    hide Repair, RowOk;
  }

  lemma PassedFewer(mid: Db, q: OrderId, env: Env)
    requires Steady(mid) && Repair(mid) == mid && q in mid.orders && mid.orders[q].status == Queued
    requires !Acts(mid, q, env)
    requires Settled(mid, q)
    ensures FewerWait(mid, PassedOver(mid, q, env))
  {
    hide Repair, HasWaiting, Steady, PassedOver, Settled, RowOk, FewerWait;
    var r := PassedOver(mid, q, env);
    PassedSteady(mid, q, env);
    SettledParts(mid, q);
    PassedFrame(mid, q, env);
    FormRests(mid, q, r.orders[q], r.parked);
  }

  lemma PassedFrame(mid: Db, q: OrderId, env: Env)
    requires Repair(mid) == mid && q in mid.orders
    ensures var r := PassedOver(mid, q, env); r == Put(mid, q, r.orders[q]).(parked := r.parked)
  {
    hide Repair, HasWaiting, ClaimTrip;
    assert mid.orders[q := mid.orders[q]] == mid.orders;
  }

  // ---------------------------------------------------------------- to the end of the check

  // The request passed over with a card still rests when the check has ended.
  lemma {:induction false} SentRests(db: Db, waiting: seq<OrderId>, d: DriverId, env: Env,
        depth: nat) returns (q: OrderId)
    requires Steady(db) && AllQueued(db, waiting) && Distinct(waiting) && depth >= 2
    requires Sends(db, waiting, d, env) && Serve(db, waiting, env, depth).Done?
    ensures var r := Serve(db, waiting, env, depth).db; Resting(r, q) && r.orders[q].slot.driver == Some(d)
    decreases |waiting|
  {
    hide Steady, Repair, ServeOne, Acts, PassedOver, FewerWait, Resting;
    var mid, p := Repair(db), waiting[0];
    assert p in waiting && p in db.orders && db.orders[p].status == Queued;
    RepairedSteady(db);
    RepairFrame(db);
    ActsIs(mid, p, env, depth);
    var r := PassedOver(mid, p, env);
    PassedSteady(mid, p, env);
    PassedRest(mid, r, waiting, env, depth, None);
    if r.orders[p].slot.driver == Some(d) {
      q := p;
      PassedRests(mid, p, env);
      ServeFewer(r, waiting[1..], env, depth);
      ServeRest(r, waiting[1..], p, env, depth);
      RestsOn(r, Serve(r, waiting[1..], env, depth).db, p);
    } else {
      q := SentRests(r, waiting[1..], d, env, depth);
    }
  }

  lemma CheckSent(db: Db, d: DriverId, env: Env, depth: nat) returns (q: OrderId)
    requires Steady(db) && depth >= 2 && CheckSends(db, d, env) && TryPromote(db, env, depth).Done?
    ensures var r := TryPromote(db, env, depth).db; Resting(r, q) && r.orders[q].slot.driver == Some(d)
  {
    hide Steady, Repair, Serve, With, PromptsStand, AllQueued, Distinct, Sends, Resting;
    RepairFrame(db);
    RepairedSteady(db);
    var polled := With(db.parked, Polling);
    var mid := if polled == [] then db else Repair(db);
    var parked := if polled == [] then mid.parked else PausePrompts(mid.parked, None);
    var x := mid.(parked := parked);
    assert polled == [] ==> x == mid;
    PausedSteady(mid);
    SteadyQueued(x, ParkWaiting);
    q := SentRests(x, With(parked, ParkWaiting), d, env, depth);
  }
}
