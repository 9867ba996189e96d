// What every answer to an offer does, told in the fields of the tables: acceptance,
// refusal, silence, and a card that cannot be delivered.
module Answers {
  import opened Options
  import opened DispatchState
  import opened OrderTable
  import opened DriverLine
  import opened Cascade
  import opened CascadeInv
  import opened CascadeDepth
  import opened Frames
  import opened PassengerQueue
  import opened Transactions
  import opened Trips
  import opened Handoff
  import opened OfferSteps
  import opened TripSteps
  import opened TripSafety
  import opened Protocol
  import opened Asking
  import opened Sending
  import opened Dispatched
  import opened Prompts

  // ---------------------------------------------------------------- after the cascade

  // Skipping a driver who is not on the line skips nobody.
  lemma {:induction false} SkipPicks(db: Db, line: Line, excluded: set<DriverId>, d: DriverId, i: nat)
    requires i <= |db.roster| && !Eligible(db, line, excluded, d)
    ensures PickFrom(db, line, excluded + {d}, i) == PickFrom(db, line, excluded, i)
    decreases |db.roster| - i
  {
    if i < |db.roster| {
      SkipPicks(db, line, excluded, d, i + 1);
      assert Eligible(db, line, excluded + {d}, db.roster[i]) == Eligible(db, line, excluded, db.roster[i]) by {
        EligibleIs(db, line, excluded, db.roster[i]);
        EligibleIs(db, line, excluded + {d}, db.roster[i]);
      }
    }
  }

  lemma SkipsNobody(db: Db, o: OrderId, d: DriverId, env: Env, depth: nat)
    requires o in db.orders && (d !in db.drivers || !db.drivers[d].onLine)
    ensures OfferToNextDriver(db, o, {d}, None, env, depth) == OfferToNextDriver(db, o, {}, None, env, depth)
  {
    hide HandleNoDriver, RepairAll, PlaceOffer;
    RepairFrame(db);
    var declined := db.orders[o].notes.declined;
    assert declined + {} == declined;
    if depth > 0 { SkipPicks(Repair(db), StageLine(db.orders[o]), declined, d, 0); }
  }

  // The opportunity check that may follow a cascade leaves its order as it is.
  lemma CheckedAfter(db: Db, o: OrderId, env: Env, depth: nat, e: Option<DriverId>)
    requires InvDuring(db, e) && Adrift(db, o) && depth >= 2 && OfferToNextDriver(db, o, {}, None, env, depth).Done?
    ensures var c := OfferToNextDriver(db, o, {}, None, env, depth).db; var r := TryPromote(c, env, depth).db;
      InvDuring(c, e) && Calm(db, c) && o in c.orders && o in r.orders && r.orders[o] == c.orders[o]
  {
    hide InvDuring, Calm, OfferToNextDriver, Quiet, FirstAsked, Rests, Stands, Settles, Unseen, Moves, Home;
    ReadyOf(db, o, e);
    AdriftOpen(db, o);
    OfferKeeps(db, o, {}, None, env, depth, e);
    var c := OfferToNextDriver(db, o, {}, None, env, depth).db;
    KeptCalm(db, c, o, e);
    HomeIs(db.orders[o], StageLine(db.orders[o]));
    CascadeAsks(db, o, None, env, depth);
    CascadeLeaves(db, o, StageLine(db.orders[o]), None, env, depth);
    if FirstAsked(db, o, env).Some? {
      CheckLeavesOthers(c, o, env, depth);
    } else {
      QuietUnseen(db, c, o);
      CheckLeavesQuiet(c, o, env, depth, e);
    }
  }

  lemma QuietUnseen(db: Db, c: Db, o: OrderId)
    requires Adrift(db, o) && Calm(db, c) && Quiet(c, o)
    ensures Unseen(c.orders[o])
  {
    assert RowCalm(db.orders[o], c.orders[o]);
  }

  // What becomes of an order handed to the cascade, with or without the check.
  lemma AfterCascade(db: Db, o: OrderId, home: Line, env: Env, depth: nat, e: Option<DriverId>)
    requires InvDuring(db, e) && Adrift(db, o) && depth >= 2 && Home(db.orders[o], home)
    ensures var c := OfferToNextDriver(db, o, {}, None, env, depth); var t := ThenPromote(c, env, depth);
      && (c.Done? ==>
            InvDuring(c.db, e) && Calm(db, c.db) && o in c.db.orders && Settles(db, o, home, env, c.db.orders[o]))
      && (t.Done? ==> c.Done? && o in t.db.orders && t.db.orders[o] == c.db.orders[o] && t.db.drivers == db.drivers)
  {
    hide InvDuring, Calm, OfferToNextDriver, Settles, TryPromote, Home;
    var c := OfferToNextDriver(db, o, {}, None, env, depth);
    if c.Done? {
      ReadyOf(db, o, e);
      CascadeLeaves(db, o, home, None, env, depth);
      CheckedAfter(db, o, env, depth, e);
      CalmFrame(db, c.db);
      TryPromoteKeeps(c.db, env, depth, e);
      CalmFrame(c.db, TryPromote(c.db, env, depth).db);
    }
  }

  // ---------------------------------------------------------------- taken off the line

  // One order rewritten, one driver off the line and out of the queue.
  function Without(db: Db, o: OrderId, row: Order, d: DriverId): (r: Db)
    requires d in db.drivers
    ensures o in r.orders && r.orders[o] == row
  {
    db.(orders := db.orders[o := row], queue := db.queue - {d},
        drivers := db.drivers[d := db.drivers[d].(onLine := false, status := Offline)])
  }

  lemma WithoutIs(db: Db, o: OrderId, row: Order, d: DriverId)
    requires d in db.drivers
    ensures Put(OffLine(db, d), o, row) == Without(db, o, row, d)
  {
    assert db.drivers[d := db.drivers[d].(status := Offline)][d := db.drivers[d].(onLine := false, status := Offline)]
        == db.drivers[d := db.drivers[d].(onLine := false, status := Offline)];
  }

  // The offer is withdrawn: it is gone from the row, and its card too if the messenger
  // lets it be closed.
  lemma OfferedRow(db: Db, o: OrderId, d: DriverId, env: Env)
    requires Inv(db) && o in db.orders && db.orders[o].status == Searching && db.orders[o].offered == Some(d)
    ensures d in db.drivers && db.drivers[d].status == Online && d in db.queue && db.queue[d].status == Offered
    ensures LiveOffer(db.orders, o, d) && Owns(db.orders[o], d, Offer) && RowOk(db.orders[o])
    ensures var row := db.orders[o];
      && Withdrawn(row, env) == row.(offered := None, offerCard := row.offerCard && !env.cardsClose)
      && row.driver.None? && row.reserved.None? && row.slot == NO_ROUTE_OFFER
  {
    assert SeatedOffer(db, o, d);
    assert RowOk(db.orders[o]);
  }

  // Closed with the offer: a request to this driver in person.
  lemma ClosedAfter(db: Db, mid: Db, o: OrderId, env: Env, depth: nat)
    requires Inv(mid) && o in mid.orders && !IsParked(mid.parked, o)
    ensures var r := TryPromote(mid, env, depth).db;
      o in r.orders && r.orders[o] == mid.orders[o] && r.drivers == mid.drivers
  {
    hide InvDuring, Calm, TryPromote, IsParked;
    CheckLeavesOthers(mid, o, env, depth);
    TryPromoteKeeps(mid, env, depth, None);
    CalmFrame(mid, TryPromote(mid, env, depth).db);
  }

  lemma NotParkedUnlessQueued(db: Db, o: OrderId)
    requires Inv(db) && o in db.orders && db.orders[o].status != Queued
    ensures !IsParked(db.parked, o)
  {
    hide OrdersInv, RosterOk, Seated, DistinctPositions;
  }

  // A driver off the line is not asked again.
  lemma NotAgain(db: Db, o: OrderId, d: DriverId, home: Line, env: Env, left: Order)
    requires o in db.orders && db.orders[o].offered.None? && Settles(db, o, home, env, left)
    requires d !in db.drivers || !db.drivers[d].onLine || d in db.orders[o].notes.declined
    ensures left.offered != Some(d)
  {
  }

  // Nor does he come back into the queue by anything that follows.
  lemma StaysOut(mid: Db, o: OrderId, d: DriverId, env: Env, depth: nat)
    requires o in mid.orders && d !in mid.queue && d in mid.drivers && mid.drivers[d].status == Offline
    ensures d !in TryPromote(mid, env, depth).db.queue
    ensures var c := OfferToNextDriver(mid, o, {}, None, env, depth);
      d !in c.db.queue && d !in ThenPromote(c, env, depth).db.queue
  {
    hide TryPromote, OfferToNextDriver;
    CheckJoins(mid, env, depth);
    OfferPrompts(mid, o, {}, None, env, depth);
    CheckJoins(OfferToNextDriver(mid, o, {}, None, env, depth).db, env, depth);
  }

  // Silence takes the driver off the line; the request dies with it if it was made to
  // him in person, and otherwise goes through the cascade, with nothing noted against
  // him.
  lemma SilenceDoes(db: Db, o: OrderId, d: DriverId, home: Line, env: Env, depth: nat)
    requires Inv(db) && o in db.orders && db.orders[o].status == Searching && db.orders[o].offered == Some(d)
    requires depth >= 2 && Home(db.orders[o], home) && Attempt(db, OfferExpires(o, d), env, depth).Done?
    ensures d in db.drivers
    ensures var r := Step(db, OfferExpires(o, d), env, depth); var row := db.orders[o];
      var free := row.(offered := None, offerCard := row.offerCard && !env.cardsClose);
      && o in r.orders && d !in r.queue
      && r.drivers == db.drivers[d := db.drivers[d].(onLine := false, status := Offline)]
      && (row.request.requested.Some? ==> r.orders[o] == free.(status := Cancelled))
      && (row.request.requested.None? ==>
            Settles(Without(db, o, free, d), o, home, env, r.orders[o]) && r.orders[o].offered != Some(d))
  {
    hide InvDuring, Lawful, TryPromote, OfferToNextDriver, RowOk, RowLaw, OffLine, AcceptTimeout, Settles, Adrift;
    hide Home, Attempt, Step;
    OfferedRow(db, o, d, env);
    RefusalIsStep(db, OfferExpires(o, d), env, depth);
    var row := Withdrawn(db.orders[o], env);
    WithdrawnRow(db.orders[o], d, env);
    WithdrawnClosed(db.orders[o], d, env);
    OffLineIsLocal(db, d);
    WithoutIs(db, o, row, d);
    WithoutIs(db, o, row.(status := Cancelled), d);
    SilenceIs(db, o, d, env, depth);
    if row.request.requested.Some? {
      OfferFreed(db, o, d, row.(status := Cancelled), OffLine(db, d), env);
      ClosedAfter(db, Without(db, o, row.(status := Cancelled), d), o, env, depth);
      StaysOut(Without(db, o, row.(status := Cancelled), d), o, d, env, depth);
    } else {
      OfferFreed(db, o, d, row, OffLine(db, d), env);
      var mid := Without(db, o, row, d);
      SkipsNobody(mid, o, d, env, depth);
      SameHome(db.orders[o], row, home);
      AfterCascade(mid, o, home, env, depth, None);
      StaysOut(mid, o, d, env, depth);
      NotAgain(mid, o, d, home, env, Step(db, OfferExpires(o, d), env, depth).orders[o]);
    }
  }

  lemma SameHome(a: Order, b: Order, home: Line)
    requires Home(a, home) && b.request == a.request && b.fallback == a.fallback
    ensures Home(b, home)
  {
    assert forall v :: StartsIn(a, v) <==> StartsIn(b, v);
  }

  lemma SilenceIs(db: Db, o: OrderId, d: DriverId, env: Env, depth: nat)
    requires LiveOffer(db.orders, o, d) && d in db.drivers
    ensures var row := Withdrawn(db.orders[o], env);
      AcceptTimeout(db, o, d, env, depth) ==
        if row.request.requested.Some?
        then TryPromote(Put(OffLine(db, d), o, row.(status := Cancelled)), env, depth)
        else ThenPromote(OfferToNextDriver(Put(OffLine(db, d), o, row), o, {d}, None, env, depth), env, depth)
  {
  }

  // So does a card the messenger cannot deliver, but the opportunity check is not run;
  // and a request made to this driver in person is left alone.
  lemma UndeliverableDoes(db: Db, o: OrderId, d: DriverId, home: Line, env: Env, depth: nat)
    requires Inv(db) && o in db.orders && db.orders[o].status == Searching && db.orders[o].offered == Some(d)
    requires depth >= 2 && Home(db.orders[o], home) && Attempt(db, OfferUndeliverable(o, d), env, depth).Done?
    ensures d in db.drivers
    ensures var r := Step(db, OfferUndeliverable(o, d), env, depth); var row := db.orders[o];
      if row.request.requested == Some(d) then r == db
      else
        && o in r.orders && d !in r.queue
        && r.drivers == db.drivers[d := db.drivers[d].(onLine := false, status := Offline)]
        && Settles(Without(db, o, row.(offered := None), d), o, home, env, r.orders[o])
        && r.orders[o].offered != Some(d)
  {
    hide InvDuring, Lawful, OfferToNextDriver, RowOk, RowLaw, OffLine, Settles, Adrift, Calm;
    hide Home, Attempt, Step;
    OfferedRow(db, o, d, env);
    RefusalIsStep(db, OfferUndeliverable(o, d), env, depth);
    if db.orders[o].request.requested != Some(d) {
      var row := db.orders[o].(offered := None);
      WithdrawnClosed(db.orders[o], d, env);
      OffLineIsLocal(db, d);
      WithoutIs(db, o, row, d);
      OfferFreed(db, o, d, row, OffLine(db, d), env);
      var mid := Without(db, o, row, d);
      SameHome(db.orders[o], row, home);
      AfterCascade(mid, o, home, env, depth, None);
      CalmFrame(mid, OfferToNextDriver(mid, o, {}, None, env, depth).db);
      StaysOut(mid, o, d, env, depth);
      NotAgain(mid, o, d, home, env, Step(db, OfferUndeliverable(o, d), env, depth).orders[o]);
    }
  }

  // ---------------------------------------------------------------- acceptance

  // May he have it? The offer lies before him, he is not suspended, on the line, with a
  // line of his own.
  ghost predicate MayTake(db: Db, o: OrderId, d: DriverId)
  {
    && o in db.orders && db.orders[o].status == Searching && db.orders[o].offered == Some(d)
    && d in db.drivers && !db.drivers[d].suspended && db.drivers[d].onLine && db.drivers[d].currentLine.Some?
  }

  // Taken: the order is his ride and shows him the arrival-time menu if that is its
  // way; he is busy, in his place.
  lemma AcceptDoes(db: Db, o: OrderId, d: DriverId, env: Env, depth: nat)
    requires Inv(db) && MayTake(db, o, d) && db.drivers[d].carReady
    ensures d in db.queue
    ensures var row := db.orders[o];
      Step(db, Accepts(o, d), env, depth) == db.(
        orders := db.orders[o := row.(status := Assigned, driver := Some(d), offered := None, offerCard :=
          if env.etaMenu then o in env.cards else row.offerCard && !env.cardsClose)],
        drivers := db.drivers[d := db.drivers[d].(status := Busy)],
        queue := db.queue[d := db.queue[d].(status := OnRide)])
  {
    hide Inv, RowOk, Claiming, TryPromote, OfferToNextDriver;
    OfferedRow(db, o, d, env);
    AcceptIsStep(db, o, d, env, depth);
  }

  lemma AcceptIsStep(db: Db, o: OrderId, d: DriverId, env: Env, depth: nat)
    ensures var r := Accept(db, o, d, env, depth); Attempt(db, Accepts(o, d), env, depth) == r
    ensures var r := Accept(db, o, d, env, depth);
      Step(db, Accepts(o, d), env, depth) == if r.Done? then r.db else db
  {
    hide Accept, Requesting, Ending, Refusing, OnTheRide, OnTheLine, Timing;
  }

  // Without a car that is ready he is off the line; a request made to him in person
  // dies, any other goes through the cascade with his refusal noted, and not back to
  // him.
  lemma NoCarDoes(db: Db, o: OrderId, d: DriverId, home: Line, env: Env, depth: nat)
    requires Inv(db) && o in db.orders && db.orders[o].status == Searching && db.orders[o].offered == Some(d)
    requires d in db.drivers && !db.drivers[d].suspended && !db.drivers[d].carReady
    requires depth >= 2 && Home(db.orders[o], home) && Attempt(db, Accepts(o, d), env, depth).Done?
    ensures var r := Step(db, Accepts(o, d), env, depth); var row := db.orders[o];
      var free := row.(offered := None, offerCard := row.offerCard && !env.cardsClose,
                       notes := row.notes.(declined := row.notes.declined + {d}));
      && o in r.orders && d !in r.queue
      && r.drivers == db.drivers[d := db.drivers[d].(onLine := false, status := Offline)]
      && r.orders[o].driver.None?
      && (row.request.requested.Some? ==> r.orders[o] == free.(status := Cancelled))
      && (row.request.requested.None? ==>
            Settles(Without(db, o, free, d), o, home, env, r.orders[o]) && r.orders[o].offered != Some(d))
  {
    hide InvDuring, Lawful, TryPromote, OfferToNextDriver, RowOk, RowLaw, OffLine, Settles, Adrift, Calm;
    hide Home, Attempt, Step, Accept;
    OfferedRow(db, o, d, env);
    AcceptIsStep(db, o, d, env, depth);
    var row := WithRefusal(Withdrawn(db.orders[o], env), d, false);
    RefusedRow(db.orders[o], d, false, env);
    OffLineIsLocal(db, d);
    WithoutIs(db, o, row, d);
    WithoutIs(db, o, row.(status := Cancelled), d);
    NoCarIs(db, o, d, env, depth);
    if row.request.requested.Some? {
      OfferFreed(db, o, d, row.(status := Cancelled), OffLine(db, d), env);
      ClosedAfter(db, Without(db, o, row.(status := Cancelled), d), o, env, depth);
      StaysOut(Without(db, o, row.(status := Cancelled), d), o, d, env, depth);
    } else {
      OfferFreed(db, o, d, row, OffLine(db, d), env);
      var mid := Without(db, o, row, d);
      SameHome(db.orders[o], row, home);
      AfterCascade(mid, o, home, env, depth, None);
      CalmFrame(mid, OfferToNextDriver(mid, o, {}, None, env, depth).db);
      StaysOut(mid, o, d, env, depth);
      NotAgain(mid, o, d, home, env, Step(db, Accepts(o, d), env, depth).orders[o]);
      SettlesFree(mid, o, home, env, Step(db, Accepts(o, d), env, depth).orders[o]);
    }
  }

  lemma SettlesFree(db: Db, o: OrderId, home: Line, env: Env, left: Order)
    requires o in db.orders && Settles(db, o, home, env, left)
    ensures left.driver.None? && left.notes == db.orders[o].notes && left.request == db.orders[o].request
    ensures left.reserved.None? && left.status in {Searching, ChatSearch, NoDrivers, Queued}
  {
  }

  lemma NoCarIs(db: Db, o: OrderId, d: DriverId, env: Env, depth: nat)
    requires LiveOffer(db.orders, o, d) && d in db.drivers && !db.drivers[d].suspended && !db.drivers[d].carReady
    ensures var row := WithRefusal(Withdrawn(db.orders[o], env), d, false);
      Accept(db, o, d, env, depth) ==
        if row.request.requested.Some?
        then TryPromote(Put(OffLine(db, d), o, row.(status := Cancelled)), env, depth)
        else OfferToNextDriver(Put(OffLine(db, d), o, row), o, {}, None, env, depth)
  {
    hide OffLine, TryPromote, OfferToNextDriver;
    var row := WithRefusal(Withdrawn(db.orders[o], env), d, false);
    assert row.(status := Searching) == row;
  }

  // In every other case the press of the button changes nothing at all.
  lemma AcceptUnshown(db: Db, o: OrderId, d: DriverId, env: Env, depth: nat)
    requires Inv(db)
    requires !(o in db.orders && db.orders[o].status == Searching && db.orders[o].offered == Some(d)
               && d in db.drivers && !db.drivers[d].suspended && !db.drivers[d].carReady)
    requires !(MayTake(db, o, d) && db.drivers[d].carReady)
    ensures Step(db, Accepts(o, d), env, depth) == db
  {
    hide Inv, RowOk, TryPromote, OfferToNextDriver, Step, Attempt;
    AcceptIsStep(db, o, d, env, depth);
    if o in db.orders && db.orders[o].offered.Some? { OfferedIsSearching(db, o); }
  }

  lemma NoCarFree(db: Db, o: OrderId, d: DriverId, env: Env, depth: nat)
    requires Inv(db) && LiveOffer(db.orders, o, d)
    requires d in db.drivers && !db.drivers[d].suspended && !db.drivers[d].carReady
    ensures var r := Accept(db, o, d, env, depth).db; o in r.orders && r.orders[o].driver.None?
  {
    hide InvDuring, Lawful, TryPromote, OfferToNextDriver, RowOk, RowLaw, OffLine, Accept, Adrift, Calm;
    OfferedRow(db, o, d, env);
    var row := WithRefusal(Withdrawn(db.orders[o], env), d, false);
    RefusedRow(db.orders[o], d, false, env);
    OffLineIsLocal(db, d);
    NoCarIs(db, o, d, env, depth);
    if row.request.requested.Some? {
      var mid := Put(OffLine(db, d), o, row.(status := Cancelled));
      OfferFreed(db, o, d, row.(status := Cancelled), OffLine(db, d), env);
      TryPromoteKeeps(mid, env, depth, None);
      LawfulCalm(db, mid, TryPromote(mid, env, depth).db);
      StaysUnowned(db, TryPromote(mid, env, depth).db, o);
    } else {
      OfferFreed(db, o, d, row, OffLine(db, d), env);
      OfferSound(db, Put(OffLine(db, d), o, row), o, {}, env, depth);
      StaysUnowned(db, OfferToNextDriver(Put(OffLine(db, d), o, row), o, {}, None, env, depth).db, o);
    }
  }

  lemma StaysUnowned(db: Db, r: Db, o: OrderId)
    requires Lawful(db, r) && o in db.orders && db.orders[o].driver.None?
    ensures o in r.orders && r.orders[o].driver.None?
  {
    assert RowLaw(db.orders[o], r.orders[o]);
  }

  // He rides the order afterwards exactly if he did before or might take it with a
  // ready car.
  lemma AcceptIff(db: Db, o: OrderId, d: DriverId, env: Env, depth: nat)
    requires Inv(db)
    ensures var r := Step(db, Accepts(o, d), env, depth);
      o in r.orders && Owns(r.orders[o], d, Ride) <==>
        (o in db.orders && Owns(db.orders[o], d, Ride)) || (MayTake(db, o, d) && db.drivers[d].carReady)
    ensures MayTake(db, o, d) && db.drivers[d].carReady ==>
              var r := Step(db, Accepts(o, d), env, depth); d in r.drivers && r.drivers[d].status == Busy
  {
    hide Inv, Step, Attempt, RowOk, Accept;
    AcceptIsStep(db, o, d, env, depth);
    if o in db.orders && db.orders[o].offered.Some? { OfferedIsSearching(db, o); }
    if MayTake(db, o, d) && db.drivers[d].carReady {
      AcceptDoes(db, o, d, env, depth);
    } else if o in db.orders && db.orders[o].status == Searching && db.orders[o].offered == Some(d)
              && d in db.drivers && !db.drivers[d].suspended && !db.drivers[d].carReady {
      NoCarFree(db, o, d, env, depth);
    } else {
      AcceptUnshown(db, o, d, env, depth);
    }
  }

  // ---------------------------------------------------------------- refusal

  // The driver keeps his place in the line, or steps away.
  lemma ReleasedIs(db: Db, o: OrderId, d: DriverId, reason: Reason, row: Order, env: Env)
    requires Inv(db) && o in db.orders && db.orders[o].status == Searching && db.orders[o].offered == Some(d)
    ensures d in db.drivers && d in db.queue
    ensures Put(AfterRefusal(db, d, reason), o, row) == db.(
              orders := db.orders[o := row],
              drivers := db.drivers[d := db.drivers[d].(status := if reason == GoneAway then Away else Online)],
              queue := db.queue[d := db.queue[d].(status := if reason == GoneAway then AwayRow else Waiting)])
  {
    hide Inv, RowOk, AfterRefusal;
    OfferedRow(db, o, d, env);
    LetGoIs(db, d, reason);
  }

  lemma LetGoIs(db: Db, d: DriverId, reason: Reason)
    requires d in db.drivers && db.drivers[d].status == Online && d in db.queue && db.queue[d].status == Offered
    ensures AfterRefusal(db, d, reason) == db.(
              drivers := db.drivers[d := db.drivers[d].(status := if reason == GoneAway then Away else Online)],
              queue := db.queue[d := db.queue[d].(status := if reason == GoneAway then AwayRow else Waiting)])
  {
    var q := db.queue[d := db.queue[d].(status := Waiting)];
    assert q[d := q[d].(status := AwayRow)] == db.queue[d := db.queue[d].(status := AwayRow)];
    var x := db.drivers[d := db.drivers[d].(status := Online)];
    assert x[d := x[d].(status := Away)] == db.drivers[d := db.drivers[d].(status := Away)];
  }

  // The row a refusal leaves, before the order is handed on.
  lemma RefusedIs(row: Order, d: DriverId, reason: Reason, env: Env)
    ensures var free := row.(offered := None, offerCard := row.offerCard && !env.cardsClose);
      Refused(row, d, reason, env) ==
        if row.request.requested.Some? then free.(status := Cancelled)
        else match reason
             case Booking | Spam => free.(status := Cancelled)
             case NeedAddress => free.(status := Created)
             case Far | DeliveryRefused =>
               free.(notes := row.notes.(declined := row.notes.declined + {d}, chatReason := true))
             case GoneAway | Dislike => free.(notes := row.notes.(declined := row.notes.declined + {d}))
  {
  }

  // A request made to this driver in person, a booking and spam are cancelled; one that
  // needs an address waits for it; anything else is noted against him and goes through
  // the cascade, as a request for the chat if he found it too far or a delivery. He is
  // not asked again, keeps his place and is away only if he says so.
  lemma DeclineDoes(db: Db, o: OrderId, d: DriverId, reason: Reason, home: Line, env: Env, depth: nat)
    requires Inv(db) && o in db.orders && db.orders[o].status == Searching && db.orders[o].offered == Some(d)
    requires depth >= 2 && Home(db.orders[o], home) && Attempt(db, Declines(o, d, reason), env, depth).Done?
    ensures d in db.drivers && d in db.queue
    ensures var r := Step(db, Declines(o, d, reason), env, depth); var row := db.orders[o];
      var free := row.(offered := None, offerCard := row.offerCard && !env.cardsClose);
      && o in r.orders && r.orders[o].offered != Some(d)
      && r.drivers == db.drivers[d := db.drivers[d].(status := if reason == GoneAway then Away else Online)]
      && if row.request.requested.Some? || reason == Booking || reason == Spam then
           r.orders[o] == free.(status := Cancelled)
         else if reason == NeedAddress then r.orders[o] == free.(status := Created)
         else
           var refused := free.(notes := row.notes.(
             declined := row.notes.declined + {d},
             chatReason := row.notes.chatReason || reason == Far || reason == DeliveryRefused));
           var mid := db.(
             orders := db.orders[o := refused],
             drivers := db.drivers[d := db.drivers[d].(status := if reason == GoneAway then Away else Online)],
             queue := db.queue[d := db.queue[d].(status := if reason == GoneAway then AwayRow else Waiting)]);
           Settles(mid, o, home, env, r.orders[o])
  {
    hide InvDuring, Lawful, TryPromote, OfferToNextDriver, RowOk, RowLaw, AfterRefusal, Settles, Adrift, Calm;
    hide Home, Attempt, Step, Refused, Holder;
    OfferedRow(db, o, d, env);
    RefusalIsStep(db, Declines(o, d, reason), env, depth);
    var row := Refused(db.orders[o], d, reason, env);
    RefusedIs(db.orders[o], d, reason, env);
    RefusedOk(db.orders[o], d, reason, env);
    ReleaseIsLocal(db, d, reason);
    ReleasedIs(db, o, d, reason, row, env);
    OfferFreed(db, o, d, row, AfterRefusal(db, d, reason), env);
    var mid := Put(AfterRefusal(db, d, reason), o, row);
    if row.status != Searching {
      ClosedAfter(db, mid, o, env, depth);
    } else {
      SameHome(db.orders[o], row, home);
      AfterCascade(mid, o, home, env, depth, None);
      CalmFrame(mid, OfferToNextDriver(mid, o, {}, None, env, depth).db);
      NotAgain(mid, o, d, home, env, Step(db, Declines(o, d, reason), env, depth).orders[o]);
    }
  }
}
